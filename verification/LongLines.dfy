/** What the reader's line limit, which no writer checks, does to the fast lane: the policy service's approval ID goes
  * into the receipt as it came, and one long enough makes the next start refuse the ledger
  * (internal/fastlane/service.go, store.go). */
module LongLines {
  import opened Results
  import opened DurableLog
  import opened PaymentTypes
  import opened ReceiptLedger
  import opened FastLane
  import opened LogLines
  import J = GatewayJournal
  import G = Gateway
  import S = GatewayServer
  import P = PaymentService

  /** A receipt the ledger takes is acknowledged however long its policy ID, and then shuts the ledger. */
  lemma LongReceiptShuts(l: Ledger, f: File<Receipt>, bytes: string, r: Receipt)
    requires f.codec == ReceiptLines() && Holds(bytes, f) && InStep(l, f) && Fits(f.codec, f.lines, LINE_MAX)
    requires !Refuses(l, r) && |r.policy| >= LINE_MAX
    ensures Acknowledges(l, r, LineFate(f.codec, r, Durable))
    ensures Reopened(f.codec, BytesAfter(l, f.codec, bytes, r, Durable), l.max) == None
  {
    hide InStep, Holds, Fits, Refuses, Reopened, BytesAfter, ReceiptLines;
    ReceiptLinesLawful(r);
    AcknowledgedReopens(l, f, bytes, r);
  }

  /** One visitor's payment from an empty start: everything goes well, and the policy service approves with policy. */
  function OnePayment(u: Setup, s: string, terms: Terms, payload: string, payer: string, tx: string, policy: string)
    : seq<Step>
  {
    [Chain(G.Open), OpenService]
    + P.FrontSteps(s, terms, payload, Some(payer), Some(policy), Synced)
    + P.BackSteps(u.records, s, terms, payload, GoodLuck(terms, payer, tx), false, 0, Synced)
  }

  function GoodLuck(terms: Terms, payer: string, tx: string): S.Luck {
    S.Luck(Some(payer), Some(Response(true, tx, terms.network, payer)), Durable, Durable)
  }

  function NoFiles(u: Setup): P.Files {
    P.Files(File(u.receipts, [], false), File(u.records, [], false))
  }

  lemma Opening(u: Setup)
    ensures Run(Start(u), [Chain(G.Open), OpenService])
            == P.Quiet(0, u.pass, Ledger(Empty, u.max, false), J.Journal(map[], false), NoFiles(u), [])
  {
    hide Next;
    assert [Chain(G.Open), OpenService][1..] == [OpenService] && [OpenService][1..] == [];
    var w := Start(u);
    assert Run(w, [Chain(G.Open), OpenService]) == Run(Next(w, Chain(G.Open)), [OpenService]);
    assert Run(Next(w, Chain(G.Open)), [OpenService]) == Run(Next(Next(w, Chain(G.Open)), OpenService), []);
    OpenBoth(u);
  }

  lemma OpenBoth(u: Setup)
    ensures Next(Next(Start(u), Chain(G.Open)), OpenService)
            == P.Quiet(0, u.pass, Ledger(Empty, u.max, false), J.Journal(map[], false), NoFiles(u), [])
  {
  }

  /** The two receipts of that payment. */
  function Reserved(s: string, terms: Terms, payload: string, payer: string, policy: string): Receipt {
    Reservation(s, Fingerprint(terms, payload), terms, payer, policy)
  }

  function Redeemed(u: Setup, s: string, terms: Terms, payload: string, payer: string, tx: string, policy: string): Receipt {
    Reserved(s, terms, payload, payer, policy).(state := Settled, transaction := tx, expires := u.pass)
  }

  lemma Preparing(u: Setup, s: string, terms: Terms, payload: string, payer: string, policy: string)
    requires s != "" && terms.network != "" && payer != "" && u.max > 0
    ensures var x := Reserved(s, terms, payload, payer, policy);
            P.Prepared(Ledger(Empty, u.max, false), J.Journal(map[], false), NoFiles(u).receipts, s, terms, payload, 0,
                       Some(payer), Some(policy), Synced)
            == (Ledger(Apply(Empty, x), u.max, false), File(u.receipts, [x], false), Some(x))
  {
    hide Apply;
    assert [] + [Reserved(s, terms, payload, payer, policy)] == [Reserved(s, terms, payload, payer, policy)];
  }

  /** The gateway submits once, and answers with the chain's own response. */
  lemma Settling(c: Codec<J.Record>, terms: Terms, payload: string, payer: string, tx: string)
    requires payer != "" && tx != ""
    ensures var o := S.SettleAlone(c, J.Journal(map[], false), File(c, [], false), [], terms, payload,
                                   GoodLuck(terms, payer, tx));
            && o.answer == Some(Response(true, tx, terms.network, payer))
            && o.sent == [Fingerprint(terms, payload)] && o.journal.bad == false
            && J.SettledIn(o.journal.records, Fingerprint(terms, payload))
  {
  }

  lemma Concluding(u: Setup, s: string, terms: Terms, payload: string, payer: string, tx: string, policy: string)
    requires s != "" && terms.network != "" && payer != "" && tx != ""
    ensures var x, r := Reserved(s, terms, payload, payer, policy), Redeemed(u, s, terms, payload, payer, tx, policy);
            var l := Ledger(Apply(Empty, x), u.max, false);
            && Outcome(x, terms, Some(Response(true, tx, terms.network, payer)), 0, u.pass) == r
            && WriteReceipt(l, r, Synced) == Ledger(Apply(Apply(Empty, x), r), u.max, false)
            && FileAfter(l, File(u.receipts, [x], false), r, Synced) == File(u.receipts, [x, r], false)
  {
    hide KeyOf;
    var x, r := Reserved(s, terms, payload, payer, policy), Redeemed(u, s, terms, payload, payer, tx, policy);
    assert [x] + [r] == [x, r];
  }

  /** After the payment the session holds a settled receipt, and one submission went out. */
  lemma PaymentRuns(u: Setup, s: string, terms: Terms, payload: string, payer: string, tx: string, policy: string)
    requires s != "" && terms.network != "" && payer != "" && tx != "" && u.max > 0
    ensures var w := Run(Start(u), OnePayment(u, s, terms, payload, payer, tx, policy));
            var x, r := Reserved(s, terms, payload, payer, policy), Redeemed(u, s, terms, payload, payer, tx, policy);
            && w.now == 0 && w.max == u.max && w.file == File(u.receipts, [x, r], false)
            && w.ledger == Some(Ledger(Apply(Apply(Empty, x), r), u.max, false))
            && w.gateway.sent == [Fingerprint(terms, payload)]
  {
    hide Run, P.Prepared, S.SettleAlone, Apply, Outcome, WriteReceipt, FileAfter, P.FrontSteps, P.BackSteps, P.Quiet,
      J.SettledIn;
    var j, l, luck := J.Journal(map[], false), Ledger(Empty, u.max, false), GoodLuck(terms, payer, tx);
    var open, front := [Chain(G.Open), OpenService], P.FrontSteps(s, terms, payload, Some(payer), Some(policy), Synced);
    var back := P.BackSteps(u.records, s, terms, payload, luck, false, 0, Synced);
    P.RunConcat(Start(u), open + front, back);
    P.RunConcat(Start(u), open, front);
    Opening(u);
    P.PreparedRuns(0, u.pass, l, j, NoFiles(u), [], s, terms, payload, Some(payer), Some(policy), Synced);
    Preparing(u, s, terms, payload, payer, policy);
    var x := Reserved(s, terms, payload, payer, policy);
    var l1, f1 := Ledger(Apply(Empty, x), u.max, false), P.Files(File(u.receipts, [x], false), File(u.records, [], false));
    assert NoFiles(u).(receipts := File(u.receipts, [x], false)) == f1;
    P.ConcludedRuns(u.records, 0, u.pass, l1, j, f1, [], s, terms, payload, x, luck, false, 0, Synced);
    Settling(u.records, terms, payload, payer, tx);
    Concluding(u, s, terms, payload, payer, tx, policy);
  }

  lemma LaterRuns(w: World)
    ensures Run(w, [Exit, OpenService]) == Next(Next(w, Exit), OpenService)
  {
    hide Next;
    assert [Exit, OpenService][1..] == [OpenService] && [OpenService][1..] == [];
    assert Run(w, [Exit, OpenService]) == Run(Next(w, Exit), [OpenService]);
    assert Run(Next(w, Exit), [OpenService]) == Run(Next(Next(w, Exit), OpenService), []);
  }

  /** A visitor pays, every write succeeds and the pass admits them; if the policy service's ID was as long as the
    * reader's limit, the process that starts next refuses the ledger, which is not torn. */
  lemma LongPolicyRefused(u: Setup, s: string, terms: Terms, payload: string, payer: string, tx: string, policy: string)
    requires s != "" && terms.network != "" && payer != "" && tx != "" && u.max > 0 && u.pass > 0
    requires u.receipts == ReceiptLines() && |policy| >= LINE_MAX
    ensures var w := Run(Start(u), OnePayment(u, s, terms, payload, payer, tx, policy));
            && Eligible(w, s) && w.gateway.sent == [Fingerprint(terms, payload)] && !w.file.torn
            && Run(w, [Exit, OpenService]).ledger == None
  {
    hide Run, OnePayment, ReceiptLines;
    PaymentRuns(u, s, terms, payload, payer, tx, policy);
    var w := Run(Start(u), OnePayment(u, s, terms, payload, payer, tx, policy));
    var x := Reserved(s, terms, payload, payer, policy);
    assert w.ledger.value.ix.bySession[s] == Redeemed(u, s, terms, payload, payer, tx, policy);
    ReceiptLinesLawful(x);
    assert !Short(u.receipts, w.file.lines[0], LINE_MAX);
    LaterRuns(w);
  }
}
