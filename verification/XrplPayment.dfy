/** Building, signing and re-reading an XRPL payment (internal/chain/xrpl/codec.go Builder, client.go). */
module XrplPayment {
  import opened Numerals
  import opened Results
  import opened SortedSets
  import opened XrplCodec
  import Hex

  type Fields = map<FieldID, seq<Byte>>

  const STX_PREFIX: seq<Byte> := [0x53, 0x54, 0x58, 0x00]

  function Piece(id: FieldID, val: seq<Byte>): (raw: seq<Byte>)
    requires ValidID(id)
    ensures raw != []
  {
    WriteHeader(id) + (if HasLength(id.typ) then WriteVL(|val|) else []) + val
  }

  ghost predicate ValidIDs(ks: seq<FieldID>, m: Fields) {
    forall k :: k in ks ==> k in m && ValidID(k)
  }

  ghost function Pieces(m: Fields, ks: seq<FieldID>): seq<Byte>
    requires ValidIDs(ks, m)
  {
    if ks == [] then [] else Piece(ks[0], m[ks[0]]) + Pieces(m, ks[1..])
  }

  ghost function Order(m: Fields): (ks: seq<FieldID>)
    ensures Lists(Less, ks, m.Keys)
  {
    FieldOrderIsTotal();
    Sorted(Less, m.Keys)
  }

  ghost predicate AllValid(m: Fields) {
    forall k :: k in m ==> ValidID(k)
  }

  /** What Builder.Bytes writes: every field once, in canonical order. */
  ghost function Serialize(m: Fields): seq<Byte>
    requires AllValid(m)
  {
    Pieces(m, Order(m))
  }

  ghost function KnownKeys(m: Fields): set<FieldID> {
    set k | k in m && Known(k)
  }

  // ----- leaf fields -----

  /** Values a builder's setters write: fixed-size, length-prefixed, or drops with only bit 62 of the top three set. */
  ghost predicate LeafOk(id: FieldID, val: seq<Byte>) {
    && ValidID(id)
    && if IsFixed(id.typ) then |val| == FixedSize(id.typ)
       else if HasLength(id.typ) then |val| <= MAX_LENGTH && (id.typ == ACCOUNT_ID ==> |val| == 20)
       else id.typ == AMOUNT && |val| == 8 && 64 <= val[0] < 96
  }

  ghost predicate Leaves(m: Fields) {
    forall k :: k in m ==> LeafOk(k, m[k])
  }

  lemma LeafReadsBack(id: FieldID, val: seq<Byte>, rest: seq<Byte>)
    requires LeafOk(id, val)
    ensures ReadValue(WriteValue(id, val) + rest, id, 0) == Done(val, |WriteValue(id, val)|)
  {
    var w := WriteValue(id, val);
    if !IsFixed(id.typ) && HasLength(id.typ) {
      LengthReadsBack(|val|, val + rest);
      assert w + rest == WriteVL(|val|) + (val + rest);
      assert (w + rest)[|WriteVL(|val|)|..] == val + rest;
      assert (val + rest)[..|val|] == val;
    } else {
      assert (w + rest)[..|val|] == val;
    }
  }

  lemma PieceReadsBack(id: FieldID, val: seq<Byte>, rest: seq<Byte>, prev: Option<FieldID>)
    requires LeafOk(id, val) && (prev.Some? ==> Less(prev.value, id))
    ensures NextField(Piece(id, val) + rest, prev) == Done(Field(id, Piece(id, val), val), |Piece(id, val)|)
  {
    var h, w := WriteHeader(id), WriteValue(id, val);
    var s := Piece(id, val) + rest;
    assert Piece(id, val) == h + w;
    assert s == h + (w + rest);
    HeaderReadsBack(id, w + rest);
    assert s[|h|..] == w + rest;
    LeafReadsBack(id, val, rest);
    assert s[..|h| + |w|] == h + w;
  }

  ghost function FieldsOf(m: Fields, ks: seq<FieldID>): (fs: seq<Field>)
    requires ValidIDs(ks, m)
    ensures |fs| == |ks|
    ensures forall i :: 0 <= i < |ks| ==> fs[i] == Field(ks[i], Piece(ks[i], m[ks[i]]), m[ks[i]])
  {
    seq(|ks|, i requires 0 <= i < |ks| => Field(ks[i], Piece(ks[i], m[ks[i]]), m[ks[i]]))
  }

  lemma {:induction false} PiecesParse(m: Fields, ks: seq<FieldID>, prev: Option<FieldID>)
    requires Leaves(m) && ValidIDs(ks, m) && Increasing(Less, ks)
    requires prev.Some? && ks != [] ==> Less(prev.value, ks[0])
    ensures ParseFields(Pieces(m, ks), prev) == Ok(FieldsOf(m, ks))
  {
    hide NextField, Piece;
    if ks != [] {
      var id, rest := ks[0], Pieces(m, ks[1..]);
      PieceReadsBack(id, m[id], rest, prev);
      assert (Piece(id, m[id]) + rest)[|Piece(id, m[id])|..] == rest;
      PiecesParse(m, ks[1..], Some(id));
      assert FieldsOf(m, ks) == [Field(id, Piece(id, m[id]), m[id])] + FieldsOf(m, ks[1..]);
    }
  }

  // ----- decoding what was built -----

  lemma LeafAmountAccepted(val: seq<Byte>)
    requires |val| == 8 && 64 <= val[0] < 96
    ensures ReadAmount(val).Ok?
  {
    TopByte(val);
  }

  /** The first of eight bytes holds bits 56 to 63 of their value. */
  lemma TopByte(val: seq<Byte>)
    requires |val| == 8
    ensures Value(256, val) / 0x100_0000_0000_0000 == val[0]
  {
    assert val[..8] == val;
    var v4, v6 := Value(256, val[..4]), Value(256, val[..6]);
    LowByteOff(val, 7);
    LowByteOff(val, 6);
    assert v6 == Value(256, val) / 0x1_0000;
    LowByteOff(val, 5);
    LowByteOff(val, 4);
    assert v4 == v6 / 0x1_0000;
    LowByteOff(val, 3);
    LowByteOff(val, 2);
    LowByteOff(val, 1);
    LowByteOff(val, 0);
    assert val[0] as int == v4 / 0x100_0000;
  }

  lemma LowByteOff(val: seq<Byte>, k: nat)
    requires k < |val|
    ensures Value(256, val[..k + 1]) == Value(256, val[..k]) * 256 + val[k] as int
  {
    ValueSnoc(256, val[..k], val[k]);
    assert val[..k + 1] == val[..k] + [val[k]];
  }

  lemma LeafAdds(t: Tx, f: Field)
    requires LeafOk(f.id, f.val)
    ensures AddField(t, f).Ok?
  {
    if f.id.typ == AMOUNT { LeafAmountAccepted(f.val); }
  }

  lemma {:induction false} LeavesAdd(m: Fields, ks: seq<FieldID>)
    requires Leaves(m) && ValidIDs(ks, m)
    ensures AddFields(NO_TX, FieldsOf(m, ks)).Ok?
    decreases |ks|
  {
    hide AddField, LeafOk, Piece;
    var fs := FieldsOf(m, ks);
    if ks != [] {
      var front, last := ks[..|ks| - 1], fs[|fs| - 1];
      LeavesAdd(m, front);
      assert fs[..|fs| - 1] == FieldsOf(m, front);
      LeafAdds(AddFields(NO_TX, FieldsOf(m, front)).value, last);
    }
  }

  /** Decode returns every field that was set, with its value, and reports no other. */
  lemma BuiltDecodes(m: Fields)
    requires Leaves(m) && m != map[]
    ensures DecodeBytes(Serialize(m)).Ok?
    ensures var t := DecodeBytes(Serialize(m)).value;
            && (forall f :: f in t.fields ==> f.id in m && f.val == m[f.id] && Reports(t, f))
            && (forall k :: k in m ==> Field(k, Piece(k, m[k]), m[k]) in t.fields)
            && t.present == KnownKeys(m)
            && t.fields == FieldsOf(m, Order(m))
  {
    hide AddFields, ParseFields, Reports, Piece, LeafOk, PresentIn;
    LeavesValid(m);
    var ks := Order(m);
    var fs := FieldsOf(m, ks);
    SerializedParses(m);
    LeavesAdd(m, ks);
    assert IDs(fs) == ks;
    DecodeReportsAll(fs);
    forall k | k in m ensures Field(k, Piece(k, m[k]), m[k]) in fs {
      var i :| 0 <= i < |ks| && ks[i] == k;
      assert fs[i] == Field(k, Piece(k, m[k]), m[k]);
    }
    PresentAre(m, fs);
  }

  lemma LeavesValid(m: Fields)
    requires Leaves(m)
    ensures AllValid(m) && ValidIDs(Order(m), m)
  {
  }

  lemma SerializedParses(m: Fields)
    requires Leaves(m)
    ensures ParseFields(Serialize(m), None) == Ok(FieldsOf(m, Order(m)))
    ensures m != map[] ==> Serialize(m) != []
  {
    PiecesParse(m, Order(m), None);
    if m != map[] {
      var any :| any in m;
      assert any in Order(m);
    }
  }

  lemma PresentAre(m: Fields, fs: seq<Field>)
    requires forall f :: f in fs ==> f.id in m
    requires forall k :: k in m ==> exists f :: f in fs && f.id == k
    ensures PresentIn(fs) == KnownKeys(m)
  {
  }

  // ----- drops -----

  /** What Drops writes for an amount: bit 62 set, eight bytes, most significant first. */
  function DropsBytes(v: nat): (bs: seq<Byte>)
    ensures |bs| == 8
  {
    BigEndian(if v / BIT62 % 2 == 1 then v else v + BIT62, 8)
  }

  lemma DropsValue(v: nat)
    requires v < 0x1_0000_0000_0000_0000
    ensures var w := if v / BIT62 % 2 == 1 then v else v + BIT62;
            Value(256, DropsBytes(v)) == w && DropsBytes(v)[0] == w / 0x100_0000_0000_0000
  {
    var w := if v / BIT62 % 2 == 1 then v else v + BIT62;
    FitsIn64(w);
    ValueOfBigEndian(w, 8);
    TopByte(DropsBytes(v));
  }

  /** A 64-bit amount of drops survives encoding and decoding exactly when it is below 2^61. */
  lemma DropsReadBack(v: nat, rest: seq<Byte>)
    requires v < 0x1_0000_0000_0000_0000
    ensures (ReadValue(DropsBytes(v) + rest, AMOUNT_FIELD, 0) == Done(DropsBytes(v), 8)
             && ReadAmount(DropsBytes(v)) == Ok(Amount(true, v)))
            <==> v < 0x2000_0000_0000_0000
  {
    DropsValue(v);
    var w := if v / BIT62 % 2 == 1 then v else v + BIT62;
    var first: int := w / 0x100_0000_0000_0000;
    assert (DropsBytes(v) + rest)[0] == first;
    assert (DropsBytes(v) + rest)[..8] == DropsBytes(v);
    assert first / 64 == w / BIT62;
    assert first / 32 == w / 0x2000_0000_0000_0000;
  }

  // ----- what the payer signs -----

  /** The raw fields that are signed: all but TxnSignature and Signers. */
  function SignedRaws(fs: seq<Field>): seq<Byte> {
    if fs == [] then []
    else (if fs[0].id == TXN_SIGNATURE || fs[0].id == SIGNERS then [] else fs[0].raw) + SignedRaws(fs[1..])
  }

  function SigningData(t: Tx): seq<Byte> {
    STX_PREFIX + SignedRaws(t.fields)
  }

  function Unsigned(ks: seq<FieldID>): seq<FieldID> {
    if ks == [] then []
    else (if ks[0] == TXN_SIGNATURE then [] else [ks[0]]) + Unsigned(ks[1..])
  }

  lemma {:induction false} UnsignedListing(ks: seq<FieldID>)
    requires Increasing(Less, ks)
    ensures Increasing(Less, Unsigned(ks))
    ensures forall k :: k in Unsigned(ks) <==> k in ks && k != TXN_SIGNATURE
  {
    if ks != [] {
      UnsignedListing(ks[1..]);
      forall k | k in Unsigned(ks[1..]) ensures Less(ks[0], k) {
        var i :| 0 <= i < |ks[1..]| && ks[1..][i] == k;
        assert ks[i + 1] == k;
      }
      if ks[0] != TXN_SIGNATURE && Unsigned(ks[1..]) != [] {
        assert Unsigned(ks[1..])[0] in Unsigned(ks[1..]);
      }
      IncreasingCons(ks[0], Unsigned(ks[1..]));
    }
  }

  lemma {:induction false} SignedRawsArePieces(m: Fields, ks: seq<FieldID>)
    requires ValidIDs(ks, m) && SIGNERS !in ks && ValidIDs(Unsigned(ks), m)
    ensures SignedRaws(FieldsOf(m, ks)) == Pieces(m, Unsigned(ks))
  {
    if ks != [] {
      var u := Unsigned(ks[1..]);
      assert FieldsOf(m, ks)[1..] == FieldsOf(m, ks[1..]);
      assert Unsigned(ks) == (if ks[0] == TXN_SIGNATURE then [] else [ks[0]]) + u;
      forall k | k in u ensures k in m && ValidID(k) {
        assert k in Unsigned(ks);
      }
      SignedRawsArePieces(m, ks[1..]);
      if ks[0] != TXN_SIGNATURE {
        assert Unsigned(ks)[0] == ks[0] && Unsigned(ks)[1..] == u;
      } else {
        assert Unsigned(ks) == u;
      }
    }
  }

  lemma {:induction false} PiecesOnlyReadListed(m: Fields, n: Fields, ks: seq<FieldID>)
    requires ValidIDs(ks, m) && ValidIDs(ks, n) && forall k :: k in ks ==> m[k] == n[k]
    ensures Pieces(m, ks) == Pieces(n, ks)
  {
    if ks != [] {
      PiecesOnlyReadListed(m, n, ks[1..]);
    }
  }

  /**
   * The signature a builder adds last is checked against exactly what was signed: decoding the signed
   * blob and taking its signing data gives back the prefix and the bytes before the signature was added.
   */
  lemma SignedBlobSignsItself(m: Fields, sig: seq<Byte>)
    requires Leaves(m) && TXN_SIGNATURE !in m && |sig| <= MAX_LENGTH
    ensures var r := DecodeBytes(Serialize(m[TXN_SIGNATURE := sig]));
            r.Ok? && SigningData(r.value) == STX_PREFIX + Serialize(m) && r.value.txnSignature == Some(sig)
  {
    hide ParseFields, AddFields, Piece, SignedRaws, Pieces;
    var n := m[TXN_SIGNATURE := sig];
    assert Leaves(n) && TXN_SIGNATURE in n;
    BuiltDecodes(n);
    var ks := Order(n);
    assert SIGNERS !in ks;
    UnsignedListing(ks);
    SignedRawsArePieces(n, ks);
    FieldOrderIsTotal();
    ListingUnique(Less, Unsigned(ks), Order(m), m.Keys);
    PiecesOnlyReadListed(n, m, Order(m));
    var t := DecodeBytes(Serialize(n)).value;
    assert Field(TXN_SIGNATURE, Piece(TXN_SIGNATURE, sig), sig) in t.fields;
  }

  // ----- the builder -----

  lemma SerializeIsPieces(m: Fields)
    requires AllValid(m)
    ensures ValidIDs(Order(m), m)
    ensures Order(m)[0..] == Order(m) && Serialize(m) == [] + Pieces(m, Order(m))
    ensures Pieces(m, []) == []
  {
  }

  lemma PiecesStep(m: Fields, keys: seq<FieldID>, i: nat, out: seq<Byte>)
    requires i < |keys| && ValidIDs(keys, m)
    ensures out + Pieces(m, keys[i..]) == out + Piece(keys[i], m[keys[i]]) + Pieces(m, keys[i + 1..])
  {
    assert keys[i..][1..] == keys[i + 1..];
  }

  lemma PieceParts(k: FieldID, val: seq<Byte>, out: seq<Byte>)
    requires ValidID(k)
    ensures out + Piece(k, val) == if HasLength(k.typ) then out + WriteHeader(k) + WriteVL(|val|) + val
                                   else out + WriteHeader(k) + val
  {
  }

  class Builder {
    var fields: Fields

    constructor ()
      ensures fields == map[TRANSACTION_TYPE := [0, 0]]
    {
      fields := map[TRANSACTION_TYPE := [0, 0]];
    }

    method U32(id: FieldID, v: nat)
      modifies this
      ensures fields == old(fields)[id := BigEndian(v, 4)]
    {
      fields := fields[id := BigEndian(v, 4)];
    }

    method Drops(id: FieldID, v: nat)
      modifies this
      ensures fields == old(fields)[id := DropsBytes(v)]
    {
      fields := fields[id := DropsBytes(v)];
    }

    /** Account, Blob and Hash256 store the bytes they are given. */
    method Set(id: FieldID, v: seq<Byte>)
      modifies this
      ensures fields == old(fields)[id := v]
    {
      fields := fields[id := v];
    }

    method Bytes() returns (out: seq<Byte>)
      requires AllValid(fields)
      ensures out == Serialize(fields)
    {
      hide Piece, Pieces, Serialize, WriteVL, WriteHeader;
      FieldOrderIsTotal();
      SerializeIsPieces(fields);
      var keys := Sort(Less, fields.Keys);
      out := [];
      var i := 0;
      while i < |keys|
        invariant 0 <= i <= |keys|
        invariant ValidIDs(keys, fields)
        invariant Serialize(fields) == out + Pieces(fields, keys[i..])
      {
        var k := keys[i];
        PiecesStep(fields, keys, i, out);
        PieceParts(k, fields[k], out);
        out := out + WriteHeader(k);
        if HasLength(k.typ) {
          out := out + WriteVL(|fields[k]|);
        }
        out := out + fields[k];
        i := i + 1;
      }
    }
  }

  // ----- the payer's transaction -----

  /** Decode takes hexadecimal text. */
  function DecodeText(text: string): Result<Tx> {
    var b := Hex.Decode(text);
    if b.Err? then Err(b.reason) else DecodeBytes(b.value)
  }

  /** What the payment asks for; accounts are 20 bytes and the invoice hash 32. */
  datatype Terms = Terms(account: seq<Byte>, destination: seq<Byte>, amount: nat, fee: nat, sequence: nat,
                         lastLedger: nat, publicKey: seq<Byte>, invoice: Option<seq<Byte>>, tag: Option<nat>, network: nat)

  const MAX_AMOUNT := 100_000_000_000_000_000
  const MAX_FEE := 2_000_001

  /** The types of the source's arguments, and the fee range its ledger client enforces. */
  ghost predicate TermsOk(p: Terms) {
    && |p.account| == 20 && |p.destination| == 20 && |p.publicKey| == 33
    && p.fee < MAX_FEE && p.sequence < 0x1_0000_0000 && p.lastLedger < 0x1_0000_0000 && p.network < 0x1_0000_0000
    && (p.invoice.Some? ==> |p.invoice.value| == 32)
    && (p.tag.Some? ==> p.tag.value < 0x1_0000_0000)
  }

  /** The fields every payment has before signing, then the optional ones. */
  ghost function RequiredFields(p: Terms): Fields {
    map[TRANSACTION_TYPE := [0, 0]]
    [ACCOUNT := p.account][DESTINATION := p.destination]
    [AMOUNT_FIELD := DropsBytes(p.amount)][FEE := DropsBytes(p.fee)]
    [FLAGS := BigEndian(0, 4)][SEQUENCE := BigEndian(p.sequence, 4)]
    [LAST_LEDGER_SEQUENCE := BigEndian(p.lastLedger, 4)][SIGNING_PUB_KEY := p.publicKey]
  }

  ghost function WithOptional(m: Fields, id: FieldID, val: Option<seq<Byte>>): Fields {
    if val.Some? then m[id := val.value] else m
  }

  ghost function U32Bytes(v: Option<nat>): Option<seq<Byte>> {
    if v.Some? then Some(BigEndian(v.value, 4)) else None
  }

  function NetworkField(network: nat): Option<nat> {
    if network > 1024 then Some(network) else None
  }

  ghost function PaymentFields(p: Terms): Fields {
    var m := WithOptional(RequiredFields(p), INVOICE_ID, p.invoice);
    var m := WithOptional(m, DESTINATION_TAG, U32Bytes(p.tag));
    WithOptional(m, NETWORK_ID, U32Bytes(NetworkField(p.network)))
  }

  ghost predicate HasU32(t: Tx, id: FieldID, v: nat) {
    id in t.present && id in t.uint32 && t.uint32[id] == v
  }

  ghost predicate HasDrops(t: Tx, id: FieldID, v: nat) {
    id in t.present && id in t.amounts && t.amounts[id] == Amount(true, v)
  }

  ghost predicate HasAccount(t: Tx, id: FieldID, a: seq<Byte>) {
    id in t.present && id in t.accounts && t.accounts[id] == a
  }

  /** The decoded transaction carries the terms: sender, recipient, amount, fee, replay fields and options. */
  ghost predicate Carries(t: Tx, p: Terms) {
    && HasAccount(t, ACCOUNT, p.account) && HasAccount(t, DESTINATION, p.destination)
    && HasDrops(t, AMOUNT_FIELD, p.amount) && HasDrops(t, FEE, p.fee)
    && HasU32(t, FLAGS, 0) && HasU32(t, SEQUENCE, p.sequence) && HasU32(t, LAST_LEDGER_SEQUENCE, p.lastLedger)
    && t.signingPubKey == Some(p.publicKey)
    && (if p.invoice.Some? then t.invoiceID == p.invoice else INVOICE_ID !in t.present)
    && (if p.tag.Some? then HasU32(t, DESTINATION_TAG, p.tag.value) else DESTINATION_TAG !in t.present)
    && (if p.network > 1024 then HasU32(t, NETWORK_ID, p.network) else NETWORK_ID !in t.present)
  }

  lemma LeavesSet(m: Fields, id: FieldID, val: seq<Byte>)
    requires Leaves(m) && LeafOk(id, val)
    ensures Leaves(m[id := val])
  {
  }

  lemma RequiredLeaves(p: Terms)
    requires TermsOk(p) && p.amount <= MAX_AMOUNT
    ensures Leaves(RequiredFields(p))
  {
    hide Leaves, LeafOk, BigEndian, DropsBytes;
    RequiredOk(p);
    var m := map[TRANSACTION_TYPE := [0, 0]];
    FirstLeaf();
    LeavesSet(m, ACCOUNT, p.account);
    m := m[ACCOUNT := p.account];
    LeavesSet(m, DESTINATION, p.destination);
    m := m[DESTINATION := p.destination];
    LeavesSet(m, AMOUNT_FIELD, DropsBytes(p.amount));
    m := m[AMOUNT_FIELD := DropsBytes(p.amount)];
    LeavesSet(m, FEE, DropsBytes(p.fee));
    m := m[FEE := DropsBytes(p.fee)];
    LeavesSet(m, FLAGS, BigEndian(0, 4));
    m := m[FLAGS := BigEndian(0, 4)];
    LeavesSet(m, SEQUENCE, BigEndian(p.sequence, 4));
    m := m[SEQUENCE := BigEndian(p.sequence, 4)];
    LeavesSet(m, LAST_LEDGER_SEQUENCE, BigEndian(p.lastLedger, 4));
    m := m[LAST_LEDGER_SEQUENCE := BigEndian(p.lastLedger, 4)];
    LeavesSet(m, SIGNING_PUB_KEY, p.publicKey);
  }

  lemma RequiredOk(p: Terms)
    requires TermsOk(p) && p.amount <= MAX_AMOUNT
    ensures LeafOk(ACCOUNT, p.account) && LeafOk(DESTINATION, p.destination) && LeafOk(SIGNING_PUB_KEY, p.publicKey)
    ensures LeafOk(AMOUNT_FIELD, DropsBytes(p.amount)) && LeafOk(FEE, DropsBytes(p.fee))
    ensures LeafOk(FLAGS, BigEndian(0, 4)) && LeafOk(SEQUENCE, BigEndian(p.sequence, 4))
    ensures LeafOk(LAST_LEDGER_SEQUENCE, BigEndian(p.lastLedger, 4))
  {
    hide BigEndian, DropsBytes;
    DropsValue(p.amount);
    DropsValue(p.fee);
  }

  lemma FirstLeaf()
    ensures Leaves(map[TRANSACTION_TYPE := [0, 0]])
  {
  }

  lemma PaymentLeaves(p: Terms)
    requires TermsOk(p) && p.amount <= MAX_AMOUNT
    ensures Leaves(PaymentFields(p)) && TXN_SIGNATURE !in PaymentFields(p)
  {
    hide RequiredFields;
    RequiredLeaves(p);
    NoSignatureYet(p);
  }

  lemma NoSignatureYet(p: Terms)
    ensures TXN_SIGNATURE !in RequiredFields(p)
  {
  }

  /** The values m holds for the terms. */
  ghost predicate Holds(m: Fields, p: Terms) {
    && ACCOUNT in m && m[ACCOUNT] == p.account && DESTINATION in m && m[DESTINATION] == p.destination
    && AMOUNT_FIELD in m && m[AMOUNT_FIELD] == DropsBytes(p.amount) && FEE in m && m[FEE] == DropsBytes(p.fee)
    && FLAGS in m && m[FLAGS] == BigEndian(0, 4) && SEQUENCE in m && m[SEQUENCE] == BigEndian(p.sequence, 4)
    && LAST_LEDGER_SEQUENCE in m && m[LAST_LEDGER_SEQUENCE] == BigEndian(p.lastLedger, 4)
    && SIGNING_PUB_KEY in m && m[SIGNING_PUB_KEY] == p.publicKey
  }

  ghost predicate HoldsOptional(m: Fields, p: Terms) {
    && (if p.invoice.Some? then INVOICE_ID in m && m[INVOICE_ID] == p.invoice.value else INVOICE_ID !in m)
    && (if p.tag.Some? then DESTINATION_TAG in m && m[DESTINATION_TAG] == BigEndian(p.tag.value, 4) else DESTINATION_TAG !in m)
    && (if p.network > 1024 then NETWORK_ID in m && m[NETWORK_ID] == BigEndian(p.network, 4) else NETWORK_ID !in m)
  }

  lemma RequiredHolds(p: Terms)
    ensures Holds(RequiredFields(p), p)
    ensures {INVOICE_ID, DESTINATION_TAG, NETWORK_ID} !! RequiredFields(p).Keys
  {
    hide DropsBytes, BigEndian;
  }

  lemma PaymentHolds(p: Terms, sig: seq<Byte>)
    ensures Holds(PaymentFields(p)[TXN_SIGNATURE := sig], p)
    ensures HoldsOptional(PaymentFields(p)[TXN_SIGNATURE := sig], p)
  {
    hide RequiredFields, DropsBytes, BigEndian;
    RequiredHolds(p);
  }

  lemma ReportedU32(m: Fields, t: Tx, id: FieldID, v: nat)
    requires id.typ == UINT32 && Known(id) && id in m && m[id] == BigEndian(v, 4) && v < 0x1_0000_0000
    requires Reports(t, Field(id, Piece(id, m[id]), m[id]))
    ensures HasU32(t, id, v)
  {
    FitsIn32(v);
    ValueOfBigEndian(v, 4);
  }

  lemma ReportedDrops(m: Fields, t: Tx, id: FieldID, v: nat)
    requires id.typ == AMOUNT && Known(id) && id in m && m[id] == DropsBytes(v) && v < 0x2000_0000_0000_0000
    requires Reports(t, Field(id, Piece(id, m[id]), m[id]))
    ensures HasDrops(t, id, v)
  {
    DropsReadBack(v, []);
  }

  lemma SignedPaymentCarries(p: Terms, sig: seq<Byte>)
    requires TermsOk(p) && p.amount <= MAX_AMOUNT && |sig| <= MAX_LENGTH
    ensures var m := PaymentFields(p)[TXN_SIGNATURE := sig];
            AllValid(m) && DecodeBytes(Serialize(m)).Ok? && Carries(DecodeBytes(Serialize(m)).value, p)
  {
    hide DecodeBytes, DropsBytes, BigEndian, Piece, Serialize, PaymentFields, Reports, Leaves, KnownKeys;
    PaymentLeaves(p);
    PaymentHolds(p, sig);
    var m := PaymentFields(p)[TXN_SIGNATURE := sig];
    LeavesSet(PaymentFields(p), TXN_SIGNATURE, sig);
    LeavesValid(m);
    BuiltDecodes(m);
    var t := DecodeBytes(Serialize(m)).value;
    forall k | k in m ensures Reports(t, Field(k, Piece(k, m[k]), m[k])) {
      assert Field(k, Piece(k, m[k]), m[k]) in t.fields;
    }
    ReportedRequired(m, t, p);
    ReportedOptional(m, t, p);
  }

  ghost predicate ReportsFields(m: Fields, t: Tx)
    requires AllValid(m)
  {
    && t.present == KnownKeys(m)
    && forall k :: k in m ==> Reports(t, Field(k, Piece(k, m[k]), m[k]))
  }

  lemma ReportedRequired(m: Fields, t: Tx, p: Terms)
    requires AllValid(m) && Holds(m, p) && ReportsFields(m, t) && TermsOk(p) && p.amount <= MAX_AMOUNT
    ensures HasAccount(t, ACCOUNT, p.account) && HasAccount(t, DESTINATION, p.destination)
    ensures HasDrops(t, AMOUNT_FIELD, p.amount) && HasDrops(t, FEE, p.fee)
    ensures HasU32(t, FLAGS, 0) && HasU32(t, SEQUENCE, p.sequence) && HasU32(t, LAST_LEDGER_SEQUENCE, p.lastLedger)
    ensures t.signingPubKey == Some(p.publicKey)
  {
    hide Piece, DropsBytes, BigEndian, Reports;
    ReportedDrops(m, t, AMOUNT_FIELD, p.amount);
    ReportedDrops(m, t, FEE, p.fee);
    ReportedU32(m, t, FLAGS, 0);
    ReportedU32(m, t, SEQUENCE, p.sequence);
    ReportedU32(m, t, LAST_LEDGER_SEQUENCE, p.lastLedger);
    ReportedBytes(m, t, ACCOUNT);
    ReportedBytes(m, t, DESTINATION);
    ReportedBytes(m, t, SIGNING_PUB_KEY);
  }

  lemma ReportedOptional(m: Fields, t: Tx, p: Terms)
    requires AllValid(m) && HoldsOptional(m, p) && ReportsFields(m, t) && TermsOk(p)
    ensures if p.invoice.Some? then t.invoiceID == p.invoice else INVOICE_ID !in t.present
    ensures if p.tag.Some? then HasU32(t, DESTINATION_TAG, p.tag.value) else DESTINATION_TAG !in t.present
    ensures if p.network > 1024 then HasU32(t, NETWORK_ID, p.network) else NETWORK_ID !in t.present
  {
    hide Piece, BigEndian, Reports;
    if p.invoice.Some? { ReportedBytes(m, t, INVOICE_ID); }
    if p.tag.Some? { ReportedU32(m, t, DESTINATION_TAG, p.tag.value); }
    if p.network > 1024 { ReportedU32(m, t, NETWORK_ID, p.network); }
  }

  lemma ReportedBytes(m: Fields, t: Tx, id: FieldID)
    requires ValidID(id) && Known(id) && id in m && Reports(t, Field(id, Piece(id, m[id]), m[id]))
    ensures id.typ == ACCOUNT_ID ==> HasAccount(t, id, m[id])
    ensures id == SIGNING_PUB_KEY ==> t.signingPubKey == Some(m[id])
    ensures id.typ == HASH256 ==> t.invoiceID == Some(m[id])
  {
  }

  /** The payer's blob decodes to the terms, signed over its own signing data. */
  method SignPayment(p: Terms, sign: seq<Byte> -> seq<Byte>) returns (blob: string)
    requires TermsOk(p) && 0 < p.amount <= MAX_AMOUNT && forall data :: |sign(data)| <= MAX_LENGTH
    ensures DecodeText(blob).Ok?
    ensures var t := DecodeText(blob).value;
            Carries(t, p) && t.txnSignature == Some(sign(SigningData(t)))
  {
    hide DecodeBytes, DropsBytes, BigEndian, Serialize, Carries, Leaves, SigningData, AllValid;
    var b := new Builder();
    b.Set(ACCOUNT, p.account);
    b.Set(DESTINATION, p.destination);
    b.Drops(AMOUNT_FIELD, p.amount);
    b.Drops(FEE, p.fee);
    b.U32(FLAGS, 0);
    b.U32(SEQUENCE, p.sequence);
    b.U32(LAST_LEDGER_SEQUENCE, p.lastLedger);
    b.Set(SIGNING_PUB_KEY, p.publicKey);
    if p.invoice.Some? {
      b.Set(INVOICE_ID, p.invoice.value);
    }
    if p.tag.Some? {
      b.U32(DESTINATION_TAG, p.tag.value);
    }
    if p.network > 1024 {
      b.U32(NETWORK_ID, p.network);
    }
    ghost var m := PaymentFields(p);
    assert b.fields == m;
    PaymentLeaves(p);
    LeavesValid(m);
    var unsigned := b.Bytes();
    var sig := sign(STX_PREFIX + unsigned);
    b.Set(TXN_SIGNATURE, sig);
    LeavesSet(m, TXN_SIGNATURE, sig);
    LeavesValid(b.fields);
    SignedBlobSignsItself(m, sig);
    SignedPaymentCarries(p, sig);
    var bytes := b.Bytes();
    Hex.DecodeEncode(bytes);
    blob := Hex.Encode(bytes);
  }
}
