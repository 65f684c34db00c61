/** The Solana transfer encoder and inspector (internal/chain/solana/tx.go). Base64 is outside the model: bytes in, bytes out. */
module Solana {
  import opened Numerals
  import opened Results
  import Base58

  type Bytes = seq<Byte>

  const MAX_TX := 1232
  const SYSTEM_PROGRAM: Bytes := [0, 0, 0, 0, 0, 0, 0, 0, 0, 0, 0, 0, 0, 0, 0, 0, 0, 0, 0, 0, 0, 0, 0, 0, 0, 0, 0, 0, 0, 0, 0, 0]

  /** A reader takes bytes from the front and leaves the rest. */
  datatype Read<+T> = Got(value: T, rest: Bytes) | Bad {
    predicate IsFailure() { Bad? }

    function PropagateFailure<U>(): Read<U>
      requires Bad?
    {
      Bad
    }

    function Extract(): (T, Bytes)
      requires Got?
    {
      (value, rest)
    }
  }

  // ----- compact lengths -----

  /** At most `left` groups of seven bits, low group first. */
  function ReadGroups(s: Bytes, left: nat): (r: Read<nat>)
    ensures r.Got? ==> |r.rest| < |s|
    decreases left
  {
    if left == 0 || s == [] then Bad
    else if s[0] < 128 then Got(s[0], s[1..])
    else
      var (v, rest) :- ReadGroups(s[1..], left - 1);
      Got(s[0] as int - 128 + 128 * v, rest)
  }

  function ReadLen(s: Bytes): (r: Read<nat>)
    ensures r.Got? ==> |r.rest| < |s|
  {
    ReadGroups(s, 3)
  }

  function WriteLen(n: nat): (bs: Bytes)
    ensures bs != []
    ensures n < 128 ==> bs == [n]
  {
    if n < 128 then [n] else [128 + n % 128] + WriteLen(n / 128)
  }

  /** What k groups can count up to: 128 to the k. */
  function Capacity(k: nat): (c: nat)
    ensures c >= 1
  {
    if k == 0 then 1 else 128 * Capacity(k - 1)
  }

  lemma {:induction false} GroupsReadBack(n: nat, left: nat, rest: Bytes)
    requires left > 0
    ensures ReadGroups(WriteLen(n) + rest, left) == Got(n, rest) <==> n < Capacity(left)
    decreases left
  {
    var s := WriteLen(n) + rest;
    if n < 128 {
      assert s[1..] == rest;
    } else {
      assert s[1..] == WriteLen(n / 128) + rest;
      if left > 1 {
        GroupsReadBack(n / 128, left - 1, rest);
      } else {
        assert Capacity(1) == 128 * Capacity(0);
      }
    }
  }

  /** Exactly the lengths below 2^21 survive being written and read back. */
  lemma LenReadsBack(n: nat, rest: Bytes)
    ensures ReadLen(WriteLen(n) + rest) == Got(n, rest) <==> n < 0x20_0000
  {
    GroupsReadBack(n, 3, rest);
    assert Capacity(3) == 128 * (128 * (128 * Capacity(0)));
  }

  /** One to three groups of seven bits, the low group first, every group but the last marked. */
  lemma LenBytes(n: nat)
    requires n < 0x20_0000
    ensures WriteLen(n) == if n < 128 then [n]
                           else if n < 16384 then [128 + n % 128, n / 128]
                           else [128 + n % 128, 128 + n / 128 % 128, n / 128 / 128]
  {
    hide WriteLen;
    if n >= 128 {
      MoreGroups(n);
      Quotient(n, 128);
      if n >= 16384 {
        MoreGroups(n / 128);
        Quotient(n / 128, 128);
      }
    }
  }

  lemma Quotient(n: nat, k: nat)
    requires k == 128
    ensures n < k * 128 ==> n / 128 < 128
    ensures n >= k * 128 ==> n / 128 >= 128
    ensures n < 128 * 16384 ==> n / 128 < 16384
  {
  }

  lemma MoreGroups(n: nat)
    requires n >= 128
    ensures WriteLen(n) == [128 + n % 128] + WriteLen(n / 128)
  {
  }

  /** The reader skips at least one byte, and exactly one only for the written form of a small length. */
  lemma OneByteLength(s: Bytes)
    requires ReadLen(s).Got? && ReadLen(s).value < 128
    ensures |s| == 1 + |ReadLen(s).rest| ==> s == WriteLen(ReadLen(s).value) + ReadLen(s).rest
  {
    if |s| == 1 + |ReadLen(s).rest| {
      assert s == [s[0]] + s[1..];
    }
  }

  /** Add `groups` groups worth v in front of what the remaining bytes hold. */
  function Prepend(v: nat, groups: nat, r: Read<nat>): Read<nat> {
    if r.Bad? then Bad
    else Got(v + (if groups == 0 then 1 else if groups == 1 then 128 else 16384) * r.value, r.rest)
  }

  method ReadLenAt(b: Bytes, i: nat) returns (r: Read<nat>)
    requires i <= |b|
    ensures r == ReadLen(b[i..])
  {
    hide WriteLen;
    var v := 0;
    for n := 0 to 3
      invariant i + n <= |b|
      invariant ReadLen(b[i..]) == Prepend(v, n, ReadGroups(b[i + n..], 3 - n))
    {
      var j := i + n;
      if j >= |b| {
        return Bad;
      }
      var c: nat := b[j];
      assert b[j..][1..] == b[j + 1..];
      if c < 128 {
        return Prepend(v, n, Got(c, b[j + 1..]));
      }
      v := Prepend(v, n, Got(c - 128, [])).value;
    }
    r := Bad;
  }

  // ----- the transaction -----

  function Take(s: Bytes, n: nat): (r: Read<Bytes>)
    ensures r.Got? <==> n <= |s|
    ensures r.Got? ==> |r.value| == n && s == r.value + r.rest
  {
    if n > |s| then Bad else Got(s[..n], s[n..])
  }

  lemma TakeBack(v: Bytes, rest: Bytes)
    ensures Take(v + rest, |v|) == Got(v, rest)
  {
    assert (v + rest)[..|v|] == v && (v + rest)[|v|..] == rest;
  }

  ghost predicate Keys(keys: seq<Bytes>) {
    && (forall k :: k in keys ==> |k| == 32)
    && forall i, j :: 0 <= i < j < |keys| ==> keys[i] != keys[j]
  }

  function Concat(keys: seq<Bytes>): Bytes {
    if keys == [] then [] else keys[0] + Concat(keys[1..])
  }

  /** count more 32-byte keys, all distinct; seen are the keys read so far. */
  function ReadKeys(s: Bytes, count: nat, seen: seq<Bytes>): (r: Read<seq<Bytes>>)
    requires Keys(seen)
    ensures r.Got? ==> Keys(r.value) && |r.value| == |seen| + count && seen <= r.value
    decreases count
  {
    if count == 0 then Got(seen, s)
    else
      var (k, rest) :- Take(s, 32);
      if k in seen then Bad else ReadKeys(rest, count - 1, seen + [k])
  }

  lemma {:induction false} KeysReadBack(keys: seq<Bytes>, done: nat, rest: Bytes)
    requires Keys(keys) && done <= |keys|
    ensures ReadKeys(Concat(keys[done..]) + rest, |keys| - done, keys[..done]) == Got(keys, rest)
    decreases |keys| - done
  {
    if done == |keys| {
      assert keys[..done] == keys && Concat(keys[done..]) + rest == rest;
    } else {
      var k := keys[done];
      assert keys[done..][1..] == keys[done + 1..];
      assert Concat(keys[done..]) + rest == k + (Concat(keys[done + 1..]) + rest);
      TakeBack(k, Concat(keys[done + 1..]) + rest);
      assert keys[..done] + [k] == keys[..done + 1];
      KeysReadBack(keys, done + 1, rest);
    }
  }

  lemma {:induction false} KeysAreFront(s: Bytes, count: nat, seen: seq<Bytes>)
    requires Keys(seen) && ReadKeys(s, count, seen).Got?
    ensures var r := ReadKeys(s, count, seen);
            s == Concat(r.value[|seen|..]) + r.rest && |Concat(r.value[|seen|..])| == 32 * count
    decreases count
  {
    hide Concat, Keys;
    NoKeys();
    if count > 0 {
      var k := Take(s, 32);
      KeysSnoc(seen, k.value);
      KeysAreFront(k.rest, count - 1, seen + [k.value]);
      OneMoreKey(s, k.value, k.rest, ReadKeys(s, count, seen), |seen|);
    } else {
      assert seen[|seen|..] == [];
    }
  }

  lemma OneMoreKey(s: Bytes, k: Bytes, rest: Bytes, r: Read<seq<Bytes>>, n: nat)
    requires s == k + rest && r.Got? && n < |r.value| && r.value[n] == k
    requires rest == Concat(r.value[n + 1..]) + r.rest
    ensures s == Concat(r.value[n..]) + r.rest && |Concat(r.value[n..])| == |k| + |Concat(r.value[n + 1..])|
  {
    hide Concat;
    ConcatCons(r.value, n);
    assert k + (Concat(r.value[n + 1..]) + r.rest) == (k + Concat(r.value[n + 1..])) + r.rest;
  }

  lemma NoKeys()
    ensures Concat([]) == []
  {
  }

  lemma KeysSnoc(seen: seq<Bytes>, k: Bytes)
    requires Keys(seen) && |k| == 32 && k !in seen
    ensures Keys(seen + [k])
  {
  }

  lemma ConcatCons(keys: seq<Bytes>, i: nat)
    requires i < |keys|
    ensures Concat(keys[i..]) == keys[i] + Concat(keys[i + 1..])
  {
    assert keys[i..][1..] == keys[i + 1..];
  }

  /** A transaction taken apart; program, from and to are indexes into keys. */
  datatype Parts = Parts(
    signature: Bytes,
    header: Bytes,
    keys: seq<Bytes>,
    blockhash: Bytes,
    program: Bytes,
    accounts: Bytes,
    data: Bytes)

  function InstructionIn(signature: Bytes, header: Bytes, keys: seq<Bytes>, s: Bytes): Read<Parts> {
    var (blockhash, s) :- Take(s, 32);
    var (instructions, s) :- ReadLen(s);
    if instructions != 1 then Bad else
    var (program, s) :- Take(s, 1);
    var (naccounts, s) :- ReadLen(s);
    if naccounts != 2 then Bad else
    var (accounts, s) :- Take(s, 2);
    var (ndata, s) :- ReadLen(s);
    if ndata != 12 then Bad else
    var (data, s) :- Take(s, 12);
    if s != [] then Bad else Got(Parts(signature, header, keys, blockhash, program, accounts, data), [])
  }

  function Parse(raw: Bytes): Read<Parts> {
    var (sigs, s) :- ReadLen(raw);
    if sigs != 1 then Bad else
    var (signature, s) :- Take(s, 64);
    var (header, s) :- Take(s, 3);
    if header[0] >= 128 then Bad else
    var (nkeys, s) :- ReadLen(s);
    if nkeys < 3 || nkeys > 16 then Bad else
    var (keys, s) :- ReadKeys(s, nkeys, []);
    if header[0] != 1 || header[1] != 0 || header[2] >= nkeys then Bad
    else InstructionIn(signature, header, keys, s)
  }

  /** The bytes of p with every length in its shortest form. */
  function Assemble(p: Parts): Bytes {
    WriteLen(1) + (p.signature + (p.header + (WriteLen(|p.keys|) + (Concat(p.keys) + (p.blockhash +
    (WriteLen(1) + (p.program + (WriteLen(2) + (p.accounts + (WriteLen(12) + p.data))))))))))
  }

  ghost predicate Shaped(p: Parts) {
    && |p.signature| == 64 && |p.header| == 3 && p.header[0] == 1 && p.header[1] == 0
    && 3 <= |p.keys| <= 16 && Keys(p.keys) && p.header[2] < |p.keys|
    && |p.blockhash| == 32 && |p.program| == 1 && |p.accounts| == 2 && |p.data| == 12
  }

  lemma ParseAssembled(p: Parts)
    requires Shaped(p)
    ensures Parse(Assemble(p)) == Got(p, [])
  {
    hide WriteLen, ReadLen, ReadKeys, Concat, Take;
    var s10 := WriteLen(12) + p.data;
    var s9 := p.accounts + s10;
    var s8 := WriteLen(2) + s9;
    var s7 := p.program + s8;
    var s6 := WriteLen(1) + s7;
    var s5 := p.blockhash + s6;
    var s4 := Concat(p.keys) + s5;
    var s3 := WriteLen(|p.keys|) + s4;
    var s2 := p.header + s3;
    var s1 := p.signature + s2;
    LenReadsBack(1, s1);
    TakeBack(p.signature, s2);
    TakeBack(p.header, s3);
    LenReadsBack(|p.keys|, s4);
    assert p.keys[0..] == p.keys && p.keys[..0] == [];
    KeysReadBack(p.keys, 0, s5);
    TakeBack(p.blockhash, s6);
    LenReadsBack(1, s7);
    TakeBack(p.program, s8);
    LenReadsBack(2, s9);
    TakeBack(p.accounts, s10);
    LenReadsBack(12, p.data);
    assert p.data + [] == p.data;
    TakeBack(p.data, []);
  }

  lemma SmallLength(n: nat)
    requires n < 128
    ensures |WriteLen(n)| == 1
  {
  }

  lemma NoKeysYet()
    ensures Keys([])
  {
  }

  /** What the reader accepts is never shorter than its canonical form, and equal to it when as short. */
  lemma ParsedIsAssembled(raw: Bytes)
    requires Parse(raw).Got?
    ensures Shaped(Parse(raw).value)
    ensures |Assemble(Parse(raw).value)| == 119 + 32 * |Parse(raw).value.keys|
    ensures raw == Assemble(Parse(raw).value) <==> |raw| == 119 + 32 * |Parse(raw).value.keys|
  {
    hide WriteLen, ReadLen, ReadKeys, Concat, Take, Keys;
    SmallLength(1);
    SmallLength(2);
    SmallLength(12);
    NoKeysYet();
    var p := Parse(raw).value;
    var r1 := ReadLen(raw);
    var sig := Take(r1.rest, 64);
    var header := Take(sig.rest, 3);
    var r2 := ReadLen(header.rest);
    var keys := ReadKeys(r2.rest, r2.value, []);
    var hash := Take(keys.rest, 32);
    var r3 := ReadLen(hash.rest);
    var program := Take(r3.rest, 1);
    var r4 := ReadLen(program.rest);
    var accounts := Take(r4.rest, 2);
    var r5 := ReadLen(accounts.rest);
    var data := Take(r5.rest, 12);
    SmallLength(r2.value);
    KeysAreFront(r2.rest, r2.value, []);
    assert p.keys[0..] == p.keys;
    OneByteLength(raw);
    OneByteLength(header.rest);
    OneByteLength(hash.rest);
    OneByteLength(program.rest);
    OneByteLength(accounts.rest);
    if |raw| == 119 + 32 * |p.keys| {
      assert r5.rest == p.data + [] == p.data;
    }
  }

  // ----- transfers -----

  /** Payment terms as the inspector compares them: the recipient's base58 text and a decimal amount. */
  datatype Terms = Terms(payTo: seq<nat>, amount: string)

  datatype Transfer = Transfer(from: Bytes, to: Bytes, lamports: nat, blockhash: Bytes, signature: Bytes, message: Bytes)

  function KeyText(symbols: seq<nat>, key: Bytes): seq<nat>
    requires |symbols| == 58
  {
    Base58.EncodeText(symbols, key)
  }

  /** The last position of k, or 0. */
  function PositionOf(keys: seq<Bytes>, k: Bytes): (i: nat)
    ensures k in keys ==> i < |keys| && keys[i] == k
    ensures i <= |keys|
  {
    if keys == [] then 0
    else if keys[|keys| - 1] == k then |keys| - 1
    else PositionOf(keys[..|keys| - 1], k)
  }

  function TransferParts(to: Bytes, lamports: nat, blockhash: Bytes, signature: Bytes, keys: seq<Bytes>, readonly: nat): Parts {
    Parts(signature, [1, 0, readonly % 256], keys, blockhash, [PositionOf(keys, SYSTEM_PROGRAM) % 256],
          [0, PositionOf(keys, to) % 256], LittleEndian(2, 4) + LittleEndian(lamports, 8))
  }

  function EncodeTransfer(to: Bytes, lamports: nat, blockhash: Bytes, signature: Bytes, keys: seq<Bytes>, readonly: nat): Bytes {
    Assemble(TransferParts(to, lamports, blockhash, signature, keys, readonly))
  }

  /** What the payer signs: everything after the signature. */
  function MessageOf(raw: Bytes): Bytes {
    var r := ReadLen(raw);
    if r.Got? && |r.rest| >= 64 then r.rest[64..] else []
  }

  /** One writable signer; the accounts after it are writable but for the last `readonly`. */
  predicate Writable(k: nat, nkeys: nat, readonly: nat) {
    k < 1 || k - 1 < nkeys - 1 - readonly
  }

  /** The checks on indexes and instruction data. */
  predicate IsTransfer(p: Parts)
    requires |p.header| == 3 && |p.program| == 1 && |p.accounts| == 2 && |p.data| == 12
  {
    var program, from, to := p.program[0], p.accounts[0], p.accounts[1];
    && program < |p.keys| && p.keys[program] == SYSTEM_PROGRAM && FromLittleEndian(p.data[..4]) == 2
    && from == 0 && to < |p.keys| && to != 0 && Writable(to, |p.keys|, p.header[2])
  }

  predicate TermsMatch(symbols: seq<nat>, from: Bytes, to: Bytes, lamports: nat, req: Terms)
    requires |symbols| == 58
  {
    KeyText(symbols, from) != req.payTo && KeyText(symbols, to) == req.payTo && FormatUint(lamports) == req.amount
  }

  type Verifier = (Bytes, Bytes, Bytes) -> bool

  function Inspect(symbols: seq<nat>, raw: Bytes, req: Terms, verify: Verifier): Option<Transfer>
    requires |symbols| == 58
  {
    if |raw| > MAX_TX || |raw| < 100 || Parse(raw).Bad? then None
    else
      var p := Parse(raw).value;
      ParsedIsAssembled(raw);
      if !IsTransfer(p) then None
      else
        var from, to, lamports := p.keys[0], p.keys[p.accounts[1]], FromLittleEndian(p.data[4..]);
        if !TermsMatch(symbols, from, to, lamports, req) then None
        else if !verify(from, MessageOf(raw), p.signature) then None
        else if EncodeTransfer(to, lamports, p.blockhash, p.signature, p.keys, p.header[2]) != raw then None
        else Some(Transfer(from, to, lamports, p.blockhash, p.signature, MessageOf(raw)))
  }

  ghost function TransferOf(p: Parts): Transfer
    requires Shaped(p) && IsTransfer(p)
  {
    Transfer(p.keys[0], p.keys[p.accounts[1]], FromLittleEndian(p.data[4..]), p.blockhash, p.signature, MessageOf(Assemble(p)))
  }

  /** Everything Inspect demands of a transfer, said of its parts. */
  ghost predicate Acceptable(symbols: seq<nat>, p: Parts, req: Terms, verify: Verifier)
    requires |symbols| == 58
  {
    && Shaped(p) && IsTransfer(p)
    && var t := TransferOf(p); TermsMatch(symbols, t.from, t.to, t.lamports, req) && verify(t.from, t.message, t.signature)
  }

  lemma {:induction false} PositionUnique(keys: seq<Bytes>, i: nat)
    requires Keys(keys) && i < |keys|
    ensures PositionOf(keys, keys[i]) == i
  {
    if i != |keys| - 1 {
      PositionUnique(keys[..|keys| - 1], i);
    }
  }

  /** A transfer's parts are determined by what Inspect reports of it and its key list. */
  lemma PartsDetermined(p: Parts)
    requires Shaped(p) && IsTransfer(p)
    ensures p == TransferParts(p.keys[p.accounts[1]], FromLittleEndian(p.data[4..]), p.blockhash, p.signature, p.keys, p.header[2])
  {
    hide PositionOf, LittleEndian, FromLittleEndian, Keys;
    PositionUnique(p.keys, p.program[0]);
    PositionUnique(p.keys, p.accounts[1]);
    DataDetermined(p.data);
    assert p.header == [1, 0, p.header[2]] && p.program == [p.program[0]] && p.accounts == [0, p.accounts[1]];
  }

  lemma DataDetermined(data: Bytes)
    requires |data| == 12
    ensures data == LittleEndian(FromLittleEndian(data[..4]), 4) + LittleEndian(FromLittleEndian(data[4..]), 8)
  {
    LittleEndianOfFrom(data[..4]);
    LittleEndianOfFrom(data[4..]);
  }

  /** Re-encoding refuses nothing but padded lengths: it fails exactly when some length took a spare byte. */
  lemma OnlyPaddingRefused(raw: Bytes)
    requires Parse(raw).Got? && Shaped(Parse(raw).value) && IsTransfer(Parse(raw).value)
    ensures var p := Parse(raw).value;
            EncodeTransfer(p.keys[p.accounts[1]], FromLittleEndian(p.data[4..]), p.blockhash, p.signature, p.keys, p.header[2]) == raw
            <==> |raw| == 119 + 32 * |p.keys|
  {
    ParsedIsAssembled(raw);
    PartsDetermined(Parse(raw).value);
  }

  /** Inspect accepts exactly the canonical encodings of acceptable transfers, and reports what they say. */
  lemma InspectAcceptsEncodings(symbols: seq<nat>, raw: Bytes, req: Terms, verify: Verifier)
    requires |symbols| == 58
    ensures Inspect(symbols, raw, req, verify).Some? <==>
              exists p :: Acceptable(symbols, p, req, verify) && raw == Assemble(p)
    ensures forall p :: Acceptable(symbols, p, req, verify) && raw == Assemble(p) ==>
              Inspect(symbols, raw, req, verify) == Some(TransferOf(p))
  {
    hide Parse, Assemble, TermsMatch, EncodeTransfer, TransferParts, IsTransfer;
    forall p | Acceptable(symbols, p, req, verify) && raw == Assemble(p)
      ensures Inspect(symbols, raw, req, verify) == Some(TransferOf(p))
    {
      AcceptsAssembled(symbols, p, req, verify);
    }
    if Inspect(symbols, raw, req, verify).Some? {
      AcceptedIsAssembled(symbols, raw, req, verify);
    }
  }

  lemma AcceptsAssembled(symbols: seq<nat>, p: Parts, req: Terms, verify: Verifier)
    requires |symbols| == 58 && Acceptable(symbols, p, req, verify)
    ensures Inspect(symbols, Assemble(p), req, verify) == Some(TransferOf(p))
  {
    hide Parse, Assemble, TermsMatch, TransferParts, IsTransfer;
    ParseAssembled(p);
    ParsedIsAssembled(Assemble(p));
    PartsDetermined(p);
  }

  lemma AcceptedIsAssembled(symbols: seq<nat>, raw: Bytes, req: Terms, verify: Verifier)
    requires |symbols| == 58 && Inspect(symbols, raw, req, verify).Some?
    ensures Parse(raw).Got? && Acceptable(symbols, Parse(raw).value, req, verify) && raw == Assemble(Parse(raw).value)
  {
    hide Parse, Assemble, TermsMatch, TransferParts, IsTransfer;
    ParsedIsAssembled(raw);
    PartsDetermined(Parse(raw).value);
  }

  // ----- building and signing -----

  function NewTransfer(from: Bytes, to: Bytes, lamports: nat, blockhash: Bytes): Bytes {
    EncodeTransfer(to, lamports, blockhash, SYSTEM_PROGRAM + SYSTEM_PROGRAM, [from, to, SYSTEM_PROGRAM], 1)
  }

  /** The signature goes into bytes 1 to 64. */
  function Sign(tx: Bytes, sign: Bytes -> Bytes): Bytes
    requires |tx| >= 65 && |sign(tx[65..])| == 64
  {
    tx[..1] + sign(tx[65..]) + tx[65..]
  }

  lemma AssembledParts(p: Parts)
    requires |p.signature| == 64
    ensures |Assemble(p)| >= 65
    ensures Assemble(p)[..1] == WriteLen(1) && Assemble(p)[1..65] == p.signature
    ensures MessageOf(Assemble(p)) == Assemble(p)[65..]
    ensures forall sig: Bytes :: |sig| == 64 ==> Assemble(p.(signature := sig)) == WriteLen(1) + sig + Assemble(p)[65..]
  {
    var tail := p.header + (WriteLen(|p.keys|) + (Concat(p.keys) + (p.blockhash +
                (WriteLen(1) + (p.program + (WriteLen(2) + (p.accounts + (WriteLen(12) + p.data))))))));
    assert Assemble(p) == WriteLen(1) + (p.signature + tail);
    assert Assemble(p)[65..] == tail;
    LenReadsBack(1, p.signature + tail);
    assert (p.signature + tail)[64..] == tail;
    forall sig: Bytes | |sig| == 64 ensures Assemble(p.(signature := sig)) == WriteLen(1) + sig + tail {
      assert Assemble(p.(signature := sig)) == WriteLen(1) + (sig + tail);
      assert WriteLen(1) + (sig + tail) == WriteLen(1) + sig + tail;
    }
  }

  lemma SigningReplacesSignature(p: Parts, sign: Bytes -> Bytes)
    requires |p.signature| == 64 && forall m :: |sign(m)| == 64
    ensures |Assemble(p)| >= 65
    ensures var m := MessageOf(Assemble(p));
            Sign(Assemble(p), sign) == Assemble(p.(signature := sign(m))) && MessageOf(Sign(Assemble(p), sign)) == m
  {
    hide Assemble, MessageOf;
    AssembledParts(p);
    var signed := p.(signature := sign(Assemble(p)[65..]));
    AssembledParts(signed);
    assert Assemble(signed)[65..] == Assemble(p)[65..];
  }

  ghost predicate DistinctSymbols(symbols: seq<nat>) {
    |symbols| == 58 && Base58.Distinct(symbols)
  }

  lemma KeyTextsDiffer(symbols: seq<nat>, a: Bytes, b: Bytes)
    requires DistinctSymbols(symbols) && a != b
    ensures KeyText(symbols, a) != KeyText(symbols, b)
  {
    if KeyText(symbols, a) == KeyText(symbols, b) {
      Base58.EncodeInjective(symbols, a, b);
    }
  }

  /**
   * A signed new transfer between distinct accounts, neither of them the System Program, passes inspection
   * against its own terms and is reported with the same sender, recipient, amount and blockhash.
   */
  lemma NewTransferAccepted(symbols: seq<nat>, from: Bytes, to: Bytes, lamports: nat, blockhash: Bytes,
                            sign: Bytes -> Bytes, verify: Verifier)
    requires DistinctSymbols(symbols)
    requires |from| == 32 && |to| == 32 && |blockhash| == 32 && lamports < 0x1_0000_0000_0000_0000
    requires from != to && from != SYSTEM_PROGRAM && to != SYSTEM_PROGRAM
    requires forall m :: |sign(m)| == 64 && verify(from, m, sign(m))
    ensures |NewTransfer(from, to, lamports, blockhash)| >= 65
    ensures var raw := Sign(NewTransfer(from, to, lamports, blockhash), sign);
            Inspect(symbols, raw, Terms(KeyText(symbols, to), FormatUint(lamports)), verify)
            == Some(Transfer(from, to, lamports, blockhash, sign(MessageOf(raw)), MessageOf(raw)))
  {
    hide Assemble, MessageOf, FormatUint, KeyText, Sign;
    var keys := [from, to, SYSTEM_PROGRAM];
    var p := TransferParts(to, lamports, blockhash, SYSTEM_PROGRAM + SYSTEM_PROGRAM, keys, 1);
    SigningReplacesSignature(p, sign);
    var signed := p.(signature := sign(MessageOf(Assemble(p))));
    NewTransferShaped(from, to, lamports, blockhash, signed.signature);
    KeyTextsDiffer(symbols, from, to);
    AcceptsAssembled(symbols, signed, Terms(KeyText(symbols, to), FormatUint(lamports)), verify);
  }

  lemma NewTransferShaped(from: Bytes, to: Bytes, lamports: nat, blockhash: Bytes, signature: Bytes)
    requires |from| == 32 && |to| == 32 && |blockhash| == 32 && |signature| == 64 && lamports < 0x1_0000_0000_0000_0000
    requires from != to && from != SYSTEM_PROGRAM && to != SYSTEM_PROGRAM
    ensures var p := TransferParts(to, lamports, blockhash, signature, [from, to, SYSTEM_PROGRAM], 1);
            Shaped(p) && IsTransfer(p) && p.keys[0] == from && p.keys[p.accounts[1]] == to && FromLittleEndian(p.data[4..]) == lamports
  {
    hide PositionOf, LittleEndian, FromLittleEndian, Keys;
    var keys := [from, to, SYSTEM_PROGRAM];
    ThreeKeys(from, to, SYSTEM_PROGRAM);
    PositionUnique(keys, 1);
    PositionUnique(keys, 2);
    TransferData(lamports);
  }

  lemma ThreeKeys(a: Bytes, b: Bytes, c: Bytes)
    requires |a| == 32 && |b| == 32 && |c| == 32 && a != b && a != c && b != c
    ensures Keys([a, b, c])
  {
    var keys := [a, b, c];
    assert forall k :: k in keys ==> k == a || k == b || k == c;
  }

  lemma TransferData(lamports: nat)
    requires lamports < 0x1_0000_0000_0000_0000
    ensures var data := LittleEndian(2, 4) + LittleEndian(lamports, 8);
            FromLittleEndian(data[..4]) == 2 && FromLittleEndian(data[4..]) == lamports
  {
    FitsIn32(2);
    FitsIn64(lamports);
    FromLittleEndianOf(2, 4);
    FromLittleEndianOf(lamports, 8);
    var data := LittleEndian(2, 4) + LittleEndian(lamports, 8);
    assert data[..4] == LittleEndian(2, 4) && data[4..] == LittleEndian(lamports, 8);
  }

  // ----- the loops -----

  method WriteLenTo(b: Bytes, n: nat) returns (out: Bytes)
    ensures out == b + WriteLen(n)
  {
    out := b;
    var m := n;
    while true
      invariant out + WriteLen(m) == b + WriteLen(n)
      decreases m
    {
      var c: Byte := m % 128;
      m := m / 128;
      if m == 0 {
        out := out + [c];
        return;
      }
      assert out + ([128 + c as int] + WriteLen(m)) == out + [128 + c as int] + WriteLen(m);
      out := out + [128 + c as int];
    }
  }

  method ReadKeyList(s: Bytes, count: nat) returns (r: Read<seq<Bytes>>)
    ensures r == ReadKeys(s, count, [])
  {
    var keys: seq<Bytes> := [];
    var seen: set<Bytes> := {};
    var rest := s;
    for k := 0 to count
      invariant |keys| == k && Keys(keys) && forall x :: x in seen <==> x in keys
      invariant ReadKeys(s, count, []) == ReadKeys(rest, count - k, keys)
    {
      var b := Take(rest, 32);
      if b.Bad? || b.value in seen {
        return Bad;
      }
      keys, seen, rest := keys + [b.value], seen + {b.value}, b.rest;
    }
    r := Got(keys, rest);
  }

  method FindPosition(keys: seq<Bytes>, k: Bytes) returns (at: nat)
    ensures at == PositionOf(keys, k)
  {
    at := 0;
    for i := 0 to |keys|
      invariant at == PositionOf(keys[..i], k)
    {
      assert keys[..i + 1][..i] == keys[..i];
      if keys[i] == k {
        at := i;
      }
    }
    assert keys[..|keys|] == keys;
  }

  method Encode(to: Bytes, lamports: nat, blockhash: Bytes, signature: Bytes, keys: seq<Bytes>, readonly: nat)
    returns (out: Bytes)
    ensures out == EncodeTransfer(to, lamports, blockhash, signature, keys, readonly)
  {
    hide WriteLen, PositionOf, LittleEndian;
    var program := FindPosition(keys, SYSTEM_PROGRAM);
    var toIndex := FindPosition(keys, to);
    out := WriteLenTo([], 1);
    out := out + signature + [1, 0, readonly % 256];
    out := WriteLenTo(out, |keys|);
    ghost var front := out;
    assert keys[0..] == keys;
    for i := 0 to |keys|
      invariant front + Concat(keys) == out + Concat(keys[i..])
    {
      assert keys[i..][1..] == keys[i + 1..];
      assert out + (keys[i] + Concat(keys[i + 1..])) == out + keys[i] + Concat(keys[i + 1..]);
      out := out + keys[i];
    }
    assert out + [] == out && [] + WriteLen(1) == WriteLen(1);
    assert out == front + Concat(keys);
    out := out + blockhash;
    out := WriteLenTo(out, 1);
    out := out + [program % 256];
    out := WriteLenTo(out, 2);
    out := out + [0, toIndex % 256];
    out := WriteLenTo(out, 12);
    out := out + (LittleEndian(2, 4) + LittleEndian(lamports, 8));
    AssembleFlat(TransferParts(to, lamports, blockhash, signature, keys, readonly));
  }

  lemma Regroup(a: Bytes, b: Bytes, c: Bytes)
    ensures a + (b + c) == a + b + c
  {
  }

  lemma AssembleFlat(p: Parts)
    ensures Assemble(p) == WriteLen(1) + p.signature + p.header + WriteLen(|p.keys|) + Concat(p.keys) + p.blockhash +
                           WriteLen(1) + p.program + WriteLen(2) + p.accounts + WriteLen(12) + p.data
  {
    hide WriteLen, Concat;
    var t10 := WriteLen(12) + p.data;
    var t9 := p.accounts + t10;
    var t8 := WriteLen(2) + t9;
    var t7 := p.program + t8;
    var t6 := WriteLen(1) + t7;
    var t5 := p.blockhash + t6;
    var t4 := Concat(p.keys) + t5;
    var t3 := WriteLen(|p.keys|) + t4;
    var t2 := p.header + t3;
    var a1 := WriteLen(1);
    var a2 := a1 + p.signature;
    var a3 := a2 + p.header;
    var a4 := a3 + WriteLen(|p.keys|);
    var a5 := a4 + Concat(p.keys);
    var a6 := a5 + p.blockhash;
    var a7 := a6 + WriteLen(1);
    var a8 := a7 + p.program;
    var a9 := a8 + WriteLen(2);
    var a10 := a9 + p.accounts;
    Regroup(a1, p.signature, t2);
    Regroup(a2, p.header, t3);
    Regroup(a3, WriteLen(|p.keys|), t4);
    Regroup(a4, Concat(p.keys), t5);
    Regroup(a5, p.blockhash, t6);
    Regroup(a6, WriteLen(1), t7);
    Regroup(a7, p.program, t8);
    Regroup(a8, WriteLen(2), t9);
    Regroup(a9, p.accounts, t10);
    Regroup(a10, WriteLen(12), p.data);
  }

  method ParseTransaction(raw: Bytes) returns (r: Read<Parts>)
    ensures r == Parse(raw)
  {
    hide ReadLen, ReadKeys;
    var sigs := ReadLenAt(raw, 0);
    assert raw[0..] == raw;
    if sigs.Bad? || sigs.value != 1 {
      return Bad;
    }
    var sig := Take(sigs.rest, 64);
    if sig.Bad? {
      return Bad;
    }
    var header := Take(sig.rest, 3);
    if header.Bad? || header.value[0] >= 128 {
      return Bad;
    }
    var nkeys := ReadLenAt(header.rest, 0);
    assert header.rest[0..] == header.rest;
    if nkeys.Bad? || nkeys.value < 3 || nkeys.value > 16 {
      return Bad;
    }
    var keys := ReadKeyList(nkeys.rest, nkeys.value);
    if keys.Bad? || header.value[0] != 1 || header.value[1] != 0 || header.value[2] >= nkeys.value {
      return Bad;
    }
    r := ParseInstruction(sig.value, header.value, keys.value, keys.rest);
  }

  method ParseInstruction(signature: Bytes, header: Bytes, keys: seq<Bytes>, s: Bytes) returns (r: Read<Parts>)
    ensures r == InstructionIn(signature, header, keys, s)
  {
    hide ReadLen;
    var blockhash := Take(s, 32);
    if blockhash.Bad? {
      return Bad;
    }
    var instructions := ReadLenAt(blockhash.rest, 0);
    assert blockhash.rest[0..] == blockhash.rest;
    if instructions.Bad? || instructions.value != 1 {
      return Bad;
    }
    var program := Take(instructions.rest, 1);
    if program.Bad? {
      return Bad;
    }
    var naccounts := ReadLenAt(program.rest, 0);
    assert program.rest[0..] == program.rest;
    if naccounts.Bad? || naccounts.value != 2 {
      return Bad;
    }
    var accounts := Take(naccounts.rest, 2);
    if accounts.Bad? {
      return Bad;
    }
    var ndata := ReadLenAt(accounts.rest, 0);
    assert accounts.rest[0..] == accounts.rest;
    if ndata.Bad? || ndata.value != 12 {
      return Bad;
    }
    var data := Take(ndata.rest, 12);
    if data.Bad? || data.rest != [] {
      return Bad;
    }
    r := Got(Parts(signature, header, keys, blockhash.value, program.value, accounts.value, data.value), []);
  }

  method InspectTransfer(symbols: seq<nat>, raw: Bytes, req: Terms, verify: Verifier) returns (r: Option<Transfer>)
    requires |symbols| == 58
    ensures r == Inspect(symbols, raw, req, verify)
  {
    hide Parse, TermsMatch, EncodeTransfer, MessageOf;
    if |raw| > MAX_TX || |raw| < 100 {
      return None;
    }
    var parsed := ParseTransaction(raw);
    if parsed.Bad? {
      return None;
    }
    ParsedIsAssembled(raw);
    var p := parsed.value;
    if !IsTransfer(p) {
      return None;
    }
    var from, to, lamports := p.keys[0], p.keys[p.accounts[1]], FromLittleEndian(p.data[4..]);
    var message := MessageOf(raw);
    if !TermsMatch(symbols, from, to, lamports, req) || !verify(from, message, p.signature) {
      return None;
    }
    var again := Encode(to, lamports, p.blockhash, p.signature, p.keys, p.header[2]);
    if again != raw {
      return None;
    }
    r := Some(Transfer(from, to, lamports, p.blockhash, p.signature, message));
  }
}
