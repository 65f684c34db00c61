/** Hexadecimal text of transaction blobs (the hex check of Decode, internal/chain/xrpl/codec.go). */
module Hex {
  import opened Numerals
  import opened Results

  function DigitOf(n: nat): char
    requires n < 16
  {
    if n < 10 then '0' + n as char else 'A' + (n - 10) as char
  }

  /** Both cases are read; -1 for anything else. */
  function ValueOf(c: char): (n: int)
    ensures -1 <= n < 16
  {
    if '0' <= c <= '9' then (c - '0') as int
    else if 'A' <= c <= 'F' then (c - 'A') as int + 10
    else if 'a' <= c <= 'f' then (c - 'a') as int + 10
    else -1
  }

  function Encode(b: seq<Byte>): (t: string)
    ensures |t| == 2 * |b|
  {
    if b == [] then "" else [DigitOf(b[0] / 16), DigitOf(b[0] % 16)] + Encode(b[1..])
  }

  function Decode(t: string): Result<seq<Byte>> {
    if t == "" then Ok([])
    else if |t| == 1 || ValueOf(t[0]) < 0 || ValueOf(t[1]) < 0 then Err("signedTxBlob must be hex")
    else
      var rest := Decode(t[2..]);
      if rest.Err? then rest else Ok([ValueOf(t[0]) * 16 + ValueOf(t[1])] + rest.value)
  }

  lemma DigitReadsBack(n: nat)
    requires n < 16
    ensures ValueOf(DigitOf(n)) == n
  {
  }

  lemma {:induction false} DecodeEncode(b: seq<Byte>)
    ensures Decode(Encode(b)) == Ok(b)
  {
    if b != [] {
      DigitReadsBack(b[0] / 16);
      DigitReadsBack(b[0] % 16);
      DecodeEncode(b[1..]);
      var t := Encode(b);
      assert t[2..] == Encode(b[1..]) && t[0] == DigitOf(b[0] / 16) && t[1] == DigitOf(b[0] % 16);
      assert b == [b[0]] + b[1..];
    }
  }
}
