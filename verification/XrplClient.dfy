/** The payer's side of an XRPL payment: which terms it takes, and what it signs (internal/chain/xrpl/client.go). */
module XrplClient {
  import opened Numerals
  import opened Results
  import opened XrplCodec
  import opened XrplPayment

  /** A value of the terms' free-form extra fields. */
  datatype Extra = Absent | Text(s: string) | Number(n: real) | Other

  /** timeout is maxTimeoutSeconds, an int64. */
  datatype Requirements = Requirements(scheme: string, network: string, asset: string, amount: string, payTo: string,
                                       timeout: int, transferMethod: Extra, invoiceId: Extra, destinationTag: Extra)

  /** The answers of one ledger server; None where the call fails. */
  datatype Ledger = Ledger(networkID: Option<nat>, index: Option<nat>, sequence: Option<nat>, fee: Option<nat>)

  datatype Key = Key(account: seq<Byte>, publicKey: seq<Byte>)

  /** Address decoding and hashing, which are not part of this model. */
  datatype Crypto = Crypto(address: string -> Option<seq<Byte>>, sha256: string -> seq<Byte>)

  const UINT32 := 0x1_0000_0000
  const LEDGER_CLOSE_SECONDS := 5
  const LEDGER_TOLERANCE := 2

  ghost predicate CryptoOk(c: Crypto) {
    && (forall s :: c.address(s).Some? ==> |c.address(s).value| == 20)
    && (forall s :: |c.sha256(s)| == 32)
  }

  /** The integer types of the answers, and the fee range the ledger client enforces. */
  predicate LedgerOk(l: Ledger) {
    && (l.networkID.Some? ==> l.networkID.value < UINT32) && (l.index.Some? ==> l.index.value < UINT32)
    && (l.sequence.Some? ==> l.sequence.value < UINT32) && (l.fee.Some? ==> l.fee.value < MAX_FEE)
  }

  // ----- reading the terms -----

  /** strconv.ParseUint in base 10. */
  function ParseUint(s: string, limit: nat): Option<nat> {
    match ReadDecimal(s)
    case None => None
    case Some(n) => if s == "" || n >= limit then None else Some(n)
  }

  /** The number of "xrpl:<id>", written without leading zeros. */
  function NetworkNumber(network: string): Option<nat> {
    if |network| < 6 || network[..5] != "xrpl:" then None
    else
      match ParseUint(network[5..], UINT32)
      case None => None
      case Some(n) => if FormatUint(n) == network[5..] then Some(n) else None
  }

  /** Each network number has exactly one name. */
  lemma NetworkReadsBack(network: string, n: nat)
    ensures NetworkNumber(network) == Some(n) <==> n < UINT32 && network == "xrpl:" + FormatUint(n)
  {
    hide Decimal, ReadDecimal;
    if n < UINT32 && network == "xrpl:" + FormatUint(n) {
      assert network[..5] == "xrpl:" && network[5..] == FormatUint(n);
      FormatReadsBack(n);
    }
    if NetworkNumber(network) == Some(n) {
      assert network == network[..5] + network[5..];
    }
  }

  /** Quotient that truncates toward zero. */
  function Quotient(a: int, n: nat): int
    requires n > 0
  {
    if a >= 0 then a / n else -((-a) / n)
  }

  function Wrap64(n: int): int {
    if n >= 0x8000_0000_0000_0000 then n - 0x1_0000_0000_0000_0000 else n
  }

  function MaxLastLedger(current: nat, timeout: int): (n: nat)
    ensures n < UINT32
  {
    (current + Quotient(Wrap64(timeout + LEDGER_CLOSE_SECONDS - 1), LEDGER_CLOSE_SECONDS) % UINT32 + LEDGER_TOLERANCE) % UINT32
  }

  /** Two ledgers more than the fewest whose closing takes the timeout. */
  lemma LastLedgerWaits(current: nat, timeout: nat)
    requires current + timeout + LEDGER_TOLERANCE < UINT32
    ensures var closes := MaxLastLedger(current, timeout) - current - LEDGER_TOLERANCE;
            (closes - 1) * LEDGER_CLOSE_SECONDS < timeout <= closes * LEDGER_CLOSE_SECONDS
  {
    var n := (timeout + LEDGER_CLOSE_SECONDS - 1) / LEDGER_CLOSE_SECONDS;
    assert Wrap64(timeout + LEDGER_CLOSE_SECONDS - 1) == timeout + LEDGER_CLOSE_SECONDS - 1;
    assert n <= timeout && n % UINT32 == n;
    assert (current + n + LEDGER_TOLERANCE) % UINT32 == current + n + LEDGER_TOLERANCE;
  }

  predicate IsTag(n: real) {
    n == n.Floor as real && 0.0 <= n < UINT32 as real
  }

  function InvoiceField(c: Crypto, v: Extra): Option<seq<Byte>> {
    if v.Text? then Some(c.sha256(v.s)) else None
  }

  function TagField(v: Extra): Option<nat> {
    if v.Number? && IsTag(v.n) then Some(v.n.Floor) else None
  }

  // ----- which terms are paid -----

  /** Exact native XRP by sequence number, to a real address, for a possible amount. */
  predicate TermsPayable(r: Requirements, c: Crypto) {
    && r.scheme == "exact" && r.asset == "XRP"
    && (r.transferMethod == Absent || r.transferMethod == Text("sequence"))
    && c.address(r.payTo).Some?
    && ParseUint(r.amount, MAX_AMOUNT + 1).Some? && ParseUint(r.amount, MAX_AMOUNT + 1).value != 0
    && (r.invoiceId == Absent || (r.invoiceId.Text? && r.invoiceId.s != ""))
    && (r.destinationTag == Absent || (r.destinationTag.Number? && IsTag(r.destinationTag.n)))
  }

  /** The server is on the network the terms name, and answers everything else asked of it. */
  predicate LedgerAnswers(r: Requirements, l: Ledger) {
    && NetworkNumber(r.network).Some? && l.networkID == NetworkNumber(r.network)
    && l.index.Some? && l.sequence.Some? && l.fee.Some?
  }

  function Paying(r: Requirements, l: Ledger, c: Crypto, k: Key): Terms
    requires TermsPayable(r, c) && LedgerAnswers(r, l)
  {
    Terms(k.account, c.address(r.payTo).value, ParseUint(r.amount, MAX_AMOUNT + 1).value, l.fee.value, l.sequence.value,
          MaxLastLedger(l.index.value, r.timeout), k.publicKey, InvoiceField(c, r.invoiceId), TagField(r.destinationTag),
          NetworkNumber(r.network).value)
  }

  /** The payment asks for what the terms and the ledger say: the amount they write in decimal, the recipient's account,
    * the network they name, the invoice's hash and the tag where they give one, the sender's next sequence number. */
  lemma PayingMeans(r: Requirements, l: Ledger, c: Crypto, k: Key)
    requires TermsPayable(r, c) && LedgerAnswers(r, l)
    ensures var p := Paying(r, l, c, k);
            && p.account == k.account && p.publicKey == k.publicKey && c.address(r.payTo) == Some(p.destination)
            && ReadDecimal(r.amount) == Some(p.amount) && 0 < p.amount <= MAX_AMOUNT
            && l.fee == Some(p.fee) && l.sequence == Some(p.sequence)
            && r.network == "xrpl:" + FormatUint(p.network) && l.networkID == Some(p.network)
            && (r.invoiceId == Absent ==> p.invoice == None)
            && (r.invoiceId.Text? ==> r.invoiceId.s != "" && p.invoice == Some(c.sha256(r.invoiceId.s)))
            && (r.destinationTag == Absent ==> p.tag == None)
            && (r.destinationTag.Number? ==> p.tag.Some? && p.tag.value as real == r.destinationTag.n)
  {
    hide ReadDecimal, FormatUint, NetworkNumber, MaxLastLedger;
    NetworkReadsBack(r.network, NetworkNumber(r.network).value);
  }

  /** A blob is made exactly for terms the client can pay and a server that answers; it decodes to a payment of those
    * terms, signed over its own signing data. */
  method NewPaymentBlob(r: Requirements, l: Ledger, c: Crypto, k: Key, sign: seq<Byte> -> seq<Byte>)
    returns (blob: Result<string>)
    requires CryptoOk(c) && LedgerOk(l) && |k.account| == 20 && |k.publicKey| == 33
    requires forall data :: |sign(data)| <= MAX_LENGTH
    ensures blob.Ok? <==> TermsPayable(r, c) && LedgerAnswers(r, l)
    ensures blob.Ok? ==> DecodeText(blob.value).Ok?
    ensures blob.Ok? ==>
              var t := DecodeText(blob.value).value;
              Carries(t, Paying(r, l, c, k)) && t.txnSignature == Some(sign(SigningData(t)))
  {
    hide DecodeText, Carries, SigningData, ParseUint, NetworkNumber, MaxLastLedger;
    if r.scheme != "exact" || r.asset != "XRP" {
      return Err("only exact native XRP payments are supported");
    }
    if r.transferMethod != Absent && r.transferMethod != Text("sequence") {
      return Err("only the sequence transfer method is supported");
    }
    var dest := c.address(r.payTo);
    if dest.None? {
      return Err("invalid address");
    }
    var amount := ParseUint(r.amount, MAX_AMOUNT + 1);
    if amount.None? || amount.value == 0 {
      return Err("invalid XRP amount");
    }
    AmountBelow(r.amount);
    var id := NetworkNumber(r.network);
    if id.None? {
      return Err("invalid XRPL network");
    }
    if l.networkID != id {
      return Err("XRPL endpoint is not on this network");
    }
    if l.index.None? || l.sequence.None? || l.fee.None? {
      return Err("the ledger server did not answer");
    }
    if r.invoiceId != Absent && (!r.invoiceId.Text? || r.invoiceId.s == "") {
      return Err("invalid invoiceId");
    }
    if r.destinationTag != Absent && (!r.destinationTag.Number? || !IsTag(r.destinationTag.n)) {
      return Err("extra.destinationTag must be a 32-bit unsigned integer");
    }
    var p := Terms(k.account, dest.value, amount.value, l.fee.value, l.sequence.value,
                   MaxLastLedger(l.index.value, r.timeout), k.publicKey, InvoiceField(c, r.invoiceId),
                   TagField(r.destinationTag), id.value);
    var text := SignPayment(p, sign);
    blob := Ok(text);
  }

  lemma AmountBelow(s: string)
    ensures ParseUint(s, MAX_AMOUNT + 1).Some? ==> ParseUint(s, MAX_AMOUNT + 1).value <= MAX_AMOUNT
  {
  }
}
