/** The bytes of an accepted transfer, position by position (internal/chain/solana/tx.go). */
module SolanaLayout {
  import opened Numerals
  import opened Results
  import opened Solana
  import Base58

  // ----- where everything stands -----

  function KeyAt(raw: Bytes, k: nat): Bytes
    requires 101 + 32 * k <= |raw|
  {
    raw[69 + 32 * k..101 + 32 * k]
  }

  /** Where the one instruction starts: after n keys and the blockhash. */
  function Body(n: nat): nat { 101 + 32 * n }

  /** One signature, one writable signer, n distinct keys, and one instruction that calls the System Program's
    * transfer from the first key to another writable one; every length takes one byte. */
  ghost predicate NativeTransfer(raw: Bytes) {
    && |raw| > 68
    && var n, b := raw[68], Body(raw[68]);
    && 3 <= n <= 16 && |raw| == b + 18
    && raw[0] == 1 && raw[65] == 1 && raw[66] == 0 && raw[67] < n
    && (forall i, j :: 0 <= i < j < n ==> KeyAt(raw, i) != KeyAt(raw, j))
    && raw[b] == 1 && raw[b + 1] < n && KeyAt(raw, raw[b + 1]) == SYSTEM_PROGRAM
    && raw[b + 2] == 2 && raw[b + 3] == 0 && 0 < raw[b + 4] < n - raw[67]
    && raw[b + 5] == 12 && raw[b + 6..b + 10] == [2, 0, 0, 0]
  }

  function Eight(bs: Bytes): nat
    requires |bs| == 8
  {
    var ds: seq<nat> := bs;
    ds[0] + 0x100 * ds[1] + 0x1_0000 * ds[2] + 0x100_0000 * ds[3] + 0x1_0000_0000 * ds[4] + 0x100_0000_0000 * ds[5] +
    0x1_0000_0000_0000 * ds[6] + 0x100_0000_0000_0000 * ds[7]
  }

  ghost function Reported(raw: Bytes): Transfer
    requires NativeTransfer(raw)
  {
    var n, b := raw[68], Body(raw[68]);
    Transfer(KeyAt(raw, 0), KeyAt(raw, raw[b + 4]), Eight(raw[b + 10..]), raw[b - 32..b], raw[1..65], raw[65..])
  }

  // ----- numbers -----

  lemma EightIs(bs: Bytes)
    requires |bs| == 8
    ensures FromLittleEndian(bs) == Eight(bs)
  {
    var b1 := bs[1..];
    var b2 := b1[1..];
    var b3 := b2[1..];
    var b4 := b3[1..];
    var b5 := b4[1..];
    var b6 := b5[1..];
    var b7 := b6[1..];
    assert b7[1..] == [];
    assert FromLittleEndian(b7) == b7[0];
    assert FromLittleEndian(b6) == b6[0] + 256 * b7[0] as int;
    assert FromLittleEndian(b5) == b5[0] + 256 * FromLittleEndian(b6);
    assert FromLittleEndian(b4) == b4[0] + 256 * FromLittleEndian(b5);
    assert FromLittleEndian(b3) == b3[0] + 256 * FromLittleEndian(b4);
    assert FromLittleEndian(b2) == b2[0] + 256 * FromLittleEndian(b3);
    assert FromLittleEndian(b1) == b1[0] + 256 * FromLittleEndian(b2);
  }

  lemma FourIs(bs: Bytes)
    requires |bs| == 4
    ensures FromLittleEndian(bs) == 2 <==> bs == [2, 0, 0, 0]
  {
    var b1 := bs[1..];
    var b2 := b1[1..];
    var b3 := b2[1..];
    assert b3[1..] == [];
    assert FromLittleEndian(b3) == b3[0];
    assert FromLittleEndian(b2) == b2[0] + 256 * b3[0] as int;
    assert FromLittleEndian(b1) == b1[0] + 256 * FromLittleEndian(b2);
  }

  // ----- parts and positions -----

  lemma {:induction false} ConcatAt(keys: seq<Bytes>, k: nat)
    requires k < |keys| && forall i :: 0 <= i < |keys| ==> |keys[i]| == 32
    ensures |Concat(keys)| == 32 * |keys| && Concat(keys)[32 * k..32 * k + 32] == keys[k]
    decreases |keys|
  {
    var rest := keys[1..];
    if |keys| == 1 {
      assert Concat(rest) == [];
      assert Concat(keys) == keys[0];
    } else if k == 0 {
      ConcatAt(rest, 0);
      assert Concat(keys)[..32] == keys[0];
    } else {
      ConcatAt(rest, k - 1);
      var s := 32 * (k - 1);
      assert Concat(keys)[s + 32..s + 64] == Concat(rest)[s..s + 32];
    }
  }

  /** Every part at its position. */
  ghost predicate LaidOut(raw: Bytes, p: Parts) {
    var n, b := |p.keys|, Body(|p.keys|);
    && 3 <= n <= 16 && |raw| == b + 18
    && raw[0] == 1 && raw[1..65] == p.signature && raw[65..68] == p.header && raw[68] == n
    && raw[69..b - 32] == Concat(p.keys) && raw[b - 32..b] == p.blockhash
    && raw[b] == 1 && raw[b + 1..b + 2] == p.program && raw[b + 2] == 2 && raw[b + 3..b + 5] == p.accounts
    && raw[b + 5] == 12 && raw[b + 6..] == p.data
  }

  ghost predicate Sized(p: Parts) {
    && |p.signature| == 64 && |p.header| == 3 && 3 <= |p.keys| <= 16 && |Concat(p.keys)| == 32 * |p.keys|
    && |p.blockhash| == 32 && |p.program| == 1 && |p.accounts| == 2 && |p.data| == 12
  }

  /** The bytes in front of p's instruction. */
  function Front(p: Parts): Bytes
    requires |p.keys| < 128
  {
    [1] + p.signature + p.header + [|p.keys|] + Concat(p.keys) + p.blockhash
  }

  function Flat(p: Parts): Bytes
    requires |p.keys| < 128
  {
    Front(p) + [1] + p.program + [2] + p.accounts + [12] + p.data
  }

  lemma AssembledIsFlat(p: Parts)
    requires |p.keys| < 128
    ensures Assemble(p) == Flat(p)
  {
    hide Assemble, Concat;
    AssembleFlat(p);
  }

  lemma Cut(raw: Bytes, a: Bytes, b: Bytes)
    requires |a| + |b| <= |raw| && raw[..|a| + |b|] == a + b
    ensures raw[..|a|] == a && raw[|a|..|a| + |b|] == b
  {
    assert raw[..|a| + |b|][..|a|] == raw[..|a|];
    assert raw[..|a| + |b|][|a|..] == raw[|a|..|a| + |b|];
    assert (a + b)[..|a|] == a && (a + b)[|a|..] == b;
  }

  lemma FrontLaidOut(raw: Bytes, p: Parts)
    requires Sized(p) && |raw| >= Body(|p.keys|) && raw[..Body(|p.keys|)] == Front(p)
    ensures var n, b := |p.keys|, Body(|p.keys|);
            && raw[0] == 1 && raw[1..65] == p.signature && raw[65..68] == p.header && raw[68] == n
            && raw[69..b - 32] == Concat(p.keys) && raw[b - 32..b] == p.blockhash
  {
    hide Concat;
    var a1: Bytes := [1];
    var a2 := a1 + p.signature;
    var a3 := a2 + p.header;
    var a4 := a3 + [|p.keys|];
    var a5 := a4 + Concat(p.keys);
    Cut(raw, a5, p.blockhash);
    Cut(raw, a4, Concat(p.keys));
    Cut(raw, a3, [|p.keys|]);
    Cut(raw, a2, p.header);
    Cut(raw, a1, p.signature);
    assert raw[..1][0] == 1 && raw[68..69][0] == |p.keys|;
  }

  lemma FlatLaidOut(p: Parts)
    requires Sized(p)
    ensures LaidOut(Flat(p), p)
  {
    hide Concat, Front;
    var raw, b := Flat(p), Body(|p.keys|);
    FrontSize(p);
    var a6 := Front(p);
    var a7 := a6 + [1];
    var a8 := a7 + p.program;
    var a9 := a8 + [2];
    var a10 := a9 + p.accounts;
    var a11 := a10 + [12];
    assert raw[..|raw|] == raw;
    Cut(raw, a11, p.data);
    Cut(raw, a10, [12]);
    Cut(raw, a9, p.accounts);
    Cut(raw, a8, [2]);
    Cut(raw, a7, p.program);
    Cut(raw, a6, [1]);
    FrontLaidOut(raw, p);
    assert raw[b..b + 1][0] == 1 && raw[b + 2..b + 3][0] == 2 && raw[b + 5..b + 6][0] == 12;
    assert raw[b + 6..] == raw[b + 6..b + 18];
  }

  lemma FrontSize(p: Parts)
    requires Sized(p)
    ensures |Front(p)| == Body(|p.keys|)
  {
    hide Concat;
  }

  lemma Joined(raw: Bytes, i: nat, j: nat)
    requires i <= j <= |raw|
    ensures raw[..i] + raw[i..j] == raw[..j]
  {
  }

  lemma LaidOutFront(raw: Bytes, p: Parts)
    requires Sized(p) && LaidOut(raw, p)
    ensures raw[..Body(|p.keys|)] == Front(p)
  {
    hide Concat;
    var b := Body(|p.keys|);
    assert raw[..1] == [1] && raw[68..69] == [|p.keys|];
    Joined(raw, 1, 65);
    Joined(raw, 65, 68);
    Joined(raw, 68, 69);
    Joined(raw, 69, b - 32);
    Joined(raw, b - 32, b);
  }

  lemma LaidOutIsFlat(raw: Bytes, p: Parts)
    requires Sized(p) && LaidOut(raw, p)
    ensures raw == Flat(p)
  {
    hide Concat;
    LaidOutFront(raw, p);
    var b := Body(|p.keys|);
    assert raw[b..b + 1] == [1] && raw[b + 2..b + 3] == [2] && raw[b + 5..b + 6] == [12];
    Joined(raw, b, b + 1);
    Joined(raw, b + 1, b + 2);
    Joined(raw, b + 2, b + 3);
    Joined(raw, b + 3, b + 5);
    Joined(raw, b + 5, b + 6);
    Joined(raw, b + 6, |raw|);
    assert raw[b + 6..|raw|] == raw[b + 6..] && raw[..|raw|] == raw;
  }

  // ----- parts of laid-out bytes -----

  function KeysAt(raw: Bytes, n: nat): (keys: seq<Bytes>)
    requires n > 0 ==> 69 + 32 * n <= |raw|
    ensures |keys| == n && forall k :: 0 <= k < n ==> keys[k] == KeyAt(raw, k)
  {
    seq(n, k requires 0 <= k < n => KeyAt(raw, k))
  }

  lemma {:induction false} ConcatSnoc(keys: seq<Bytes>, k: Bytes)
    ensures Concat(keys + [k]) == Concat(keys) + k
    decreases |keys|
  {
    if keys == [] {
      assert Concat([]) == [];
      assert [k][1..] == [] && [] + [k] == [k];
    } else {
      assert (keys + [k])[1..] == keys[1..] + [k];
      ConcatSnoc(keys[1..], k);
    }
  }

  lemma {:induction false} ConcatKeys(raw: Bytes, n: nat)
    requires 69 + 32 * n <= |raw|
    ensures Concat(KeysAt(raw, n)) == raw[69..69 + 32 * n]
  {
    if n > 0 {
      assert KeysAt(raw, n) == KeysAt(raw, n - 1) + [KeyAt(raw, n - 1)];
      ConcatSnoc(KeysAt(raw, n - 1), KeyAt(raw, n - 1));
      ConcatKeys(raw, n - 1);
    }
  }

  function PartsAt(raw: Bytes): Parts
    requires |raw| > 68 && |raw| == Body(raw[68]) + 18
  {
    var b := Body(raw[68]);
    Parts(raw[1..65], raw[65..68], KeysAt(raw, raw[68]), raw[b - 32..b], raw[b + 1..b + 2], raw[b + 3..b + 5], raw[b + 6..])
  }

  lemma PartsLaidOut(raw: Bytes)
    requires NativeTransfer(raw)
    ensures Sized(PartsAt(raw)) && LaidOut(raw, PartsAt(raw))
  {
    hide Concat, KeyAt;
    ConcatKeys(raw, raw[68]);
  }

  lemma PartsTransfer(raw: Bytes)
    requires NativeTransfer(raw)
    ensures Shaped(PartsAt(raw)) && IsTransfer(PartsAt(raw))
  {
    hide FromLittleEndian, KeyAt;
    var p, b := PartsAt(raw), Body(raw[68]);
    KeysSized(raw, raw[68]);
    assert p.data[..4] == raw[b + 6..b + 10];
    FourIs(p.data[..4]);
  }

  lemma KeysSized(raw: Bytes, n: nat)
    requires n > 0 ==> 69 + 32 * n <= |raw|
    ensures forall k :: k in KeysAt(raw, n) ==> |k| == 32
  {
  }

  lemma LaidOutParts(raw: Bytes)
    requires NativeTransfer(raw)
    ensures var p := PartsAt(raw);
            Shaped(p) && IsTransfer(p) && Sized(p) && LaidOut(raw, p)
  {
    hide Shaped, IsTransfer, Sized, LaidOut, NativeTransfer;
    PartsLaidOut(raw);
    PartsTransfer(raw);
  }

  lemma {:induction false} ConcatSize(keys: seq<Bytes>)
    requires forall i :: 0 <= i < |keys| ==> |keys[i]| == 32
    ensures |Concat(keys)| == 32 * |keys|
    decreases |keys|
  {
    if keys != [] {
      ConcatSize(keys[1..]);
    }
  }

  lemma SliceOfSlice(s: Bytes, i: nat, j: nat, a: nat, b: nat)
    requires i <= j <= |s| && a <= b <= j - i
    ensures s[i..j][a..b] == s[i + a..i + b]
  {
    var t := s[i..j];
    assert forall k :: 0 <= k < b - a ==> t[a..b][k] == s[i + a..i + b][k];
  }

  lemma KeyPlaced(raw: Bytes, p: Parts, k: nat)
    requires Shaped(p) && LaidOut(raw, p) && k < |p.keys|
    ensures KeyAt(raw, k) == p.keys[k]
  {
    hide Concat;
    ConcatAt(p.keys, k);
    SliceOfSlice(raw, 69, Body(|p.keys|) - 32, 32 * k, 32 * k + 32);
  }

  /** What stands at single positions. */
  lemma PositionsAt(raw: Bytes, p: Parts)
    requires Sized(p) && LaidOut(raw, p)
    ensures var b := Body(|p.keys|);
            && |raw| == b + 18 && raw[0] == 1 && raw[68] == |p.keys| && raw[b] == 1 && raw[b + 2] == 2 && raw[b + 5] == 12
            && raw[65] == p.header[0] && raw[66] == p.header[1] && raw[67] == p.header[2]
            && raw[b + 1] == p.program[0] && raw[b + 3] == p.accounts[0] && raw[b + 4] == p.accounts[1]
            && raw[b + 6..b + 10] == p.data[..4] && raw[b + 10..] == p.data[4..]
            && raw[1..65] == p.signature && raw[b - 32..b] == p.blockhash
  {
    hide Concat;
    var b := Body(|p.keys|);
    assert p.data[..4] == raw[b + 6..b + 10] && p.data[4..] == raw[b + 10..];
  }

  lemma TransferLaidOut(raw: Bytes, p: Parts)
    requires Shaped(p) && IsTransfer(p) && Sized(p) && LaidOut(raw, p)
    ensures NativeTransfer(raw)
    ensures Reported(raw) == Transfer(p.keys[0], p.keys[p.accounts[1]], FromLittleEndian(p.data[4..]), p.blockhash,
                                      p.signature, raw[65..])
  {
    hide FromLittleEndian, LaidOut, Sized, Eight, KeyAt;
    PositionsAt(raw, p);
    forall k | 0 <= k < |p.keys| ensures KeyAt(raw, k) == p.keys[k] {
      KeyPlaced(raw, p, k);
    }
    FourIs(p.data[..4]);
    EightIs(p.data[4..]);
  }

  // ----- what inspection accepts -----

  /** The terms of a payment, met byte by byte. */
  ghost predicate Pays(symbols: seq<nat>, raw: Bytes, req: Terms, verify: Verifier)
    requires |symbols| == 58
  {
    && NativeTransfer(raw)
    && var t := Reported(raw);
    && KeyText(symbols, t.to) == req.payTo && KeyText(symbols, t.from) != req.payTo && Writes(req.amount, t.lamports)
    && verify(t.from, raw[65..], raw[1..65])
  }

  /** Inspection accepts exactly the bytes of one native transfer that pays the terms, signed by its sender, and
    * reports the sender, recipient, amount, blockhash and signature that stand in them. */
  lemma AcceptedBytes(symbols: seq<nat>, raw: Bytes, req: Terms, verify: Verifier)
    requires |symbols| == 58
    ensures Inspect(symbols, raw, req, verify)
            == if Pays(symbols, raw, req, verify) then Some(Reported(raw)) else None
  {
    hide Inspect, Acceptable, Writes, KeyText, FormatUint, FromLittleEndian, Shaped, IsTransfer, LaidOut, NativeTransfer, Flat, Sized;
    InspectAcceptsEncodings(symbols, raw, req, verify);
    if Pays(symbols, raw, req, verify) {
      PaysAcceptable(symbols, raw, req, verify);
    }
    if Inspect(symbols, raw, req, verify).Some? {
      var p :| Acceptable(symbols, p, req, verify) && raw == Assemble(p);
      AcceptablePays(symbols, raw, p, req, verify);
    }
  }

  lemma PaysAcceptable(symbols: seq<nat>, raw: Bytes, req: Terms, verify: Verifier)
    requires |symbols| == 58 && Pays(symbols, raw, req, verify)
    ensures var p := PartsAt(raw);
            Acceptable(symbols, p, req, verify) && raw == Assemble(p) && TransferOf(p) == Reported(raw)
  {
    hide Assemble, Writes, KeyText, FormatUint, FromLittleEndian, Flat, LaidOut, IsTransfer, Reported, MessageOf;
    var p := PartsAt(raw);
    LaidOutParts(raw);
    LaidOutIsFlat(raw, p);
    AssembledIsFlat(p);
    AssembledParts(p);
    TransferLaidOut(raw, p);
    FormatWritten(req.amount, Reported(raw).lamports);
  }

  lemma AcceptablePays(symbols: seq<nat>, raw: Bytes, p: Parts, req: Terms, verify: Verifier)
    requires |symbols| == 58 && Acceptable(symbols, p, req, verify) && raw == Assemble(p)
    ensures Pays(symbols, raw, req, verify) && TransferOf(p) == Reported(raw)
  {
    hide Assemble, Writes, KeyText, FormatUint, FromLittleEndian, Flat, LaidOut, IsTransfer, Reported, MessageOf;
    ConcatSize(p.keys);
    AssembledIsFlat(p);
    FlatLaidOut(p);
    AssembledParts(p);
    TransferLaidOut(raw, p);
    FormatWritten(req.amount, Reported(raw).lamports);
    SignatureAt(raw, p);
  }

  lemma SignatureAt(raw: Bytes, p: Parts)
    requires LaidOut(raw, p)
    ensures |raw| > 65 && raw[1..65] == p.signature
  {
  }

  lemma NewTransferParts(from: Bytes, to: Bytes, lamports: nat, blockhash: Bytes, signature: Bytes) returns (p: Parts)
    requires |from| == 32 && |to| == 32 && |blockhash| == 32 && |signature| == 64 && lamports < 0x1_0000_0000_0000_0000
    requires from != to && from != SYSTEM_PROGRAM && to != SYSTEM_PROGRAM
    ensures Sized(p) && Shaped(p) && IsTransfer(p) && Flat(p) == EncodeTransfer(to, lamports, blockhash, signature, [from, to, SYSTEM_PROGRAM], 1)
    ensures p.header == [1, 0, 1] && p.keys == [from, to, SYSTEM_PROGRAM] && p.blockhash == blockhash
    ensures p.program == [2] && p.accounts == [0, 1] && FromLittleEndian(p.data[4..]) == lamports
  {
    hide Assemble, FromLittleEndian, LittleEndian, IsTransfer, Keys, PositionOf, Flat;
    var keys := [from, to, SYSTEM_PROGRAM];
    p := TransferParts(to, lamports, blockhash, signature, keys, 1);
    NewTransferShaped(from, to, lamports, blockhash, signature);
    ConcatSize(keys);
    ThreeKeys(from, to, SYSTEM_PROGRAM);
    PositionUnique(keys, 1);
    PositionUnique(keys, 2);
    AssembledIsFlat(p);
  }

  /** What stands after the signature of a new transfer. */
  ghost predicate NewMessage(m: Bytes, from: Bytes, to: Bytes, lamports: nat, blockhash: Bytes) {
    && |m| == 150 && m[..4] == [1, 0, 1, 3] && m[4..36] == from && m[36..68] == to && m[68..100] == SYSTEM_PROGRAM
    && m[100..132] == blockhash && m[132..142] == [1, 2, 2, 0, 1, 12, 2, 0, 0, 0] && Eight(m[142..]) == lamports
  }

  lemma LaidOutMessage(raw: Bytes, p: Parts, from: Bytes, to: Bytes, lamports: nat, blockhash: Bytes)
    requires Sized(p) && Shaped(p) && IsTransfer(p) && LaidOut(raw, p)
    requires p.header == [1, 0, 1] && p.keys == [from, to, SYSTEM_PROGRAM] && p.blockhash == blockhash
    requires p.program == [2] && p.accounts == [0, 1] && FromLittleEndian(p.data[4..]) == lamports
    ensures |raw| == 215 && raw[0] == 1 && NewMessage(raw[65..], from, to, lamports, blockhash)
  {
    hide FromLittleEndian, LaidOut, Eight;
    PositionsAt(raw, p);
    EightIs(p.data[4..]);
    FourIs(p.data[..4]);
    KeyPlaced(raw, p, 0);
    KeyPlaced(raw, p, 1);
    KeyPlaced(raw, p, 2);
    MessageAt(raw);
  }

  /** Counted from the end of the signature. */
  lemma MessageAt(raw: Bytes)
    requires |raw| == 215
    ensures var m := raw[65..];
            && m[..4] == [raw[65], raw[66], raw[67], raw[68]] && m[4..36] == KeyAt(raw, 0) && m[36..68] == KeyAt(raw, 1)
            && m[68..100] == KeyAt(raw, 2) && m[100..132] == raw[165..197]
            && m[132..142] == [raw[197], raw[198], raw[199], raw[200], raw[201], raw[202]] + raw[203..207]
            && m[142..] == raw[207..]
  {
    var m := raw[65..];
    assert m == raw[65..215];
    SliceOfSlice(raw, 65, 215, 4, 36);
    SliceOfSlice(raw, 65, 215, 36, 68);
    SliceOfSlice(raw, 65, 215, 68, 100);
    SliceOfSlice(raw, 65, 215, 100, 132);
  }

  /** A signed new transfer, byte for byte. */
  lemma NewTransferBytes(from: Bytes, to: Bytes, lamports: nat, blockhash: Bytes, sign: Bytes -> Bytes)
    requires |from| == 32 && |to| == 32 && |blockhash| == 32 && lamports < 0x1_0000_0000_0000_0000
    requires from != to && from != SYSTEM_PROGRAM && to != SYSTEM_PROGRAM && forall m :: |sign(m)| == 64
    ensures |NewTransfer(from, to, lamports, blockhash)| == 215
    ensures var raw := Sign(NewTransfer(from, to, lamports, blockhash), sign);
            && raw == [1] + sign(raw[65..]) + raw[65..] && NewMessage(raw[65..], from, to, lamports, blockhash)
  {
    hide FromLittleEndian, Flat, IsTransfer, Shaped, Sized, LaidOut, NewMessage, EncodeTransfer;
    var p := NewTransferParts(from, to, lamports, blockhash, SYSTEM_PROGRAM + SYSTEM_PROGRAM);
    var tx := NewTransfer(from, to, lamports, blockhash);
    FlatLaidOut(p);
    LaidOutMessage(tx, p, from, to, lamports, blockhash);
    var raw := Sign(tx, sign);
    assert tx[..1] == [1];
    assert raw[65..] == tx[65..];
  }
}
