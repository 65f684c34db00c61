/** What the fast lane owes its visitors: a first payment that goes well opens the pass, and so does retrying one whose
  * outcome was unknown (internal/fastlane/service.go, internal/gateway/server.go). */
module FastLaneProgress {
  import opened Results
  import opened DurableLog
  import opened PaymentTypes
  import opened ReceiptLedger
  import opened FastLane
  import J = GatewayJournal
  import G = Gateway
  import GatewaySafety
  import P = PaymentService

  // ----- the gateway alone -----

  /** Call id is at pc, its instance k is healthy and has `records`. */
  predicate Stands(g: G.World, id: nat, k: nat, terms: Terms, payload: string, pc: G.Pc, records: map<Auth, J.Record>) {
    && id in g.settlements && g.settlements[id] == G.Settlement(k, Fingerprint(terms, payload), terms, pc)
    && k < |g.gateways| && g.gateways[k].journal == J.Journal(records, false)
  }

  lemma CallStands(g: G.World, id: nat, k: nat, terms: Terms, payload: string)
    requires id !in g.settlements && k < |g.gateways| && !g.gateways[k].journal.bad && (k, terms.network) !in g.turn
    ensures var g1 := G.Next(g, G.Call(id, k, terms, payload));
            var g2 := G.Next(g1, G.TakeTurn(id));
            && Stands(g2, id, k, terms, payload, G.Holding, g.gateways[k].journal.records) && g2.sent == g.sent
  {
  }

  lemma LookStands(g: G.World, id: nat, k: nat, terms: Terms, payload: string, payer: string, records: map<Auth, J.Record>)
    requires Stands(g, id, k, terms, payload, G.Holding, records) && Fingerprint(terms, payload) !in records && payer != ""
    ensures var g1 := G.Next(g, G.Look(id));
            var g2 := G.Next(g1, G.Preflight(id, Some(payer)));
            Stands(g2, id, k, terms, payload, G.Verified(payer), records) && g2.sent == g.sent
  {
  }

  lemma ReserveStands(g: G.World, id: nat, k: nat, terms: Terms, payload: string, payer: string, records: map<Auth, J.Record>)
    requires Stands(g, id, k, terms, payload, G.Verified(payer), records) && Fingerprint(terms, payload) !in records
    ensures var a, g1 := Fingerprint(terms, payload), G.Next(g, G.Reserve(id, Synced));
            && Stands(g1, id, k, terms, payload, G.Journaled(payer), records[a := J.Record(a, terms, payer, Pending, None)])
            && g1.sent == g.sent
  {
    hide J.FileAfter;
  }

  lemma SubmitStands(g: G.World, id: nat, k: nat, terms: Terms, payload: string, payer: string, res: Response,
                     records: map<Auth, J.Record>)
    requires Stands(g, id, k, terms, payload, G.Journaled(payer), records)
    requires GatewaySafety.Matches(terms.network, payer, Some(res))
    ensures var g1 := G.Next(g, G.Submit(id, Some(res)));
            && Stands(g1, id, k, terms, payload, G.Submitted(payer, res), records)
            && g1.sent == g.sent + [Fingerprint(terms, payload)]
  {
  }

  lemma FinishStands(g: G.World, id: nat, k: nat, terms: Terms, payload: string, payer: string, res: Response,
                     records: map<Auth, J.Record>)
    requires Stands(g, id, k, terms, payload, G.Submitted(payer, res), records) && !J.SettledIn(records, Fingerprint(terms, payload))
    ensures var g1 := G.Next(g, G.Finish(id, Synced));
            && id in g1.settlements && g1.settlements[id].at == G.Answered(Some(res)) && g1.sent == g.sent
  {
    hide J.FileAfter;
  }

  function SettleSteps(id: nat, payer: string, res: Response): seq<G.Step> {
    [G.TakeTurn(id), G.Look(id), G.Preflight(id, Some(payer)), G.Reserve(id, Synced), G.Submit(id, Some(res)),
     G.Finish(id, Synced)]
  }

  /** A new authorization that the chain settles is handed over once and answered with the chain's response. */
  lemma NewIsSettled(g: G.World, id: nat, k: nat, terms: Terms, payload: string, payer: string, res: Response)
    requires id !in g.settlements && k < |g.gateways| && !g.gateways[k].journal.bad && (k, terms.network) !in g.turn
    requires Fingerprint(terms, payload) !in g.gateways[k].journal.records && payer != ""
    requires GatewaySafety.Matches(terms.network, payer, Some(res))
    ensures var g' := G.Run(G.Next(g, G.Call(id, k, terms, payload)), SettleSteps(id, payer, res));
            && id in g'.settlements && g'.settlements[id].at == G.Answered(Some(res))
            && g'.sent == g.sent + [Fingerprint(terms, payload)]
  {
    hide G.Next, G.Run, Stands, GatewaySafety.Matches;
    var a, records := Fingerprint(terms, payload), g.gateways[k].journal.records;
    var s := SettleSteps(id, payer, res);
    var g1 := G.Next(g, G.Call(id, k, terms, payload));
    CallStands(g, id, k, terms, payload);
    var g2 := G.Next(g1, G.TakeTurn(id));
    LookStands(g2, id, k, terms, payload, payer, records);
    var g4 := G.Next(G.Next(g2, G.Look(id)), G.Preflight(id, Some(payer)));
    ReserveStands(g4, id, k, terms, payload, payer, records);
    var g5 := G.Next(g4, G.Reserve(id, Synced));
    var records' := records[a := J.Record(a, terms, payer, Pending, None)];
    SubmitStands(g5, id, k, terms, payload, payer, res, records');
    FinishStands(G.Next(g5, G.Submit(id, Some(res))), id, k, terms, payload, payer, res, records');
    SixSteps(g1, s);
  }

  lemma SixSteps(g: G.World, s: seq<G.Step>)
    requires |s| == 6
    ensures G.Run(g, s) == G.Next(G.Next(G.Next(G.Next(G.Next(G.Next(g, s[0]), s[1]), s[2]), s[3]), s[4]), s[5])
  {
    hide G.Next;
    var g3 := G.Next(G.Next(G.Next(g, s[0]), s[1]), s[2]);
    assert s[1..][1..] == s[2..] && s[2..][1..] == s[3..] && s[3..] == [s[3], s[4], s[5]];
    assert G.Run(g, s) == G.Run(G.Next(g, s[0]), s[1..]) == G.Run(G.Next(G.Next(g, s[0]), s[1]), s[2..]) == G.Run(g3, s[3..]);
    G.ThreeSteps(g3, s[3], s[4], s[5]);
  }

  // ----- one request's way to the gateway -----

  function Asking(w: World, s: string, terms: Terms, payload: string, pc: Pc): World {
    w.(requests := w.requests[s := Request(Fingerprint(terms, payload), terms, payload, pc)])
  }

  lemma PutAsking(w: World, s: string, terms: Terms, payload: string, pc: Pc, pc': Pc)
    ensures Put(Asking(w, s, terms, payload, pc), s, pc') == Asking(w, s, terms, payload, pc')
  {
    var q := Request(Fingerprint(terms, payload), terms, payload, pc);
    assert w.requests[s := q][s := q.(at := pc')] == w.requests[s := q.(at := pc')];
  }

  /** Up to the look at the session's latest receipt, when no pass is running. */
  lemma Arrives(w: World, s: string, terms: Terms, payload: string)
    requires w.ledger.Some? && s !in w.requests && s != "" && terms.network != ""
    requires s in w.ledger.value.ix.bySession ==> !Live(w.ledger.value.ix.bySession[s], w.now)
    ensures Next(Next(w, Begin(s, terms, payload)), ReadPrior(s))
            == Asking(w, s, terms, payload, Looked(Prior(w.ledger.value.ix, s)))
  {
    hide Put;
    PutAsking(w, s, terms, payload, Arrived, Looked(Prior(w.ledger.value.ix, s)));
  }

  /** The identical open payment is retried: a new call with the very receipt. */
  lemma RetryGoesOn(w: World, s: string, terms: Terms, payload: string, x: Receipt)
    requires Inv(w) && w.ledger.Some? && Open(w.ledger.value.ix, s, Fingerprint(terms, payload), x)
    ensures Next(Asking(w, s, terms, payload, Looked(Prior(w.ledger.value.ix, s))), Decide(s))
            == Asking(w, s, terms, payload, Ready(x))
  {
    hide Put, G.Disk, G.Inv, Replayed, Admitted, Consistent, PaidFor, ReceiptOk;
    LatestSession(w.ledger.value.ix);
    PutAsking(w, s, terms, payload, Looked(Prior(w.ledger.value.ix, s)), Ready(x));
  }

  lemma NewGoesOn(w: World, s: string, terms: Terms, payload: string)
    requires w.ledger.Some? && Clear(w.ledger.value.ix, s, Fingerprint(terms, payload), w.now)
    requires Fingerprint(terms, payload) !in w.ledger.value.ix.receipts
    requires s in w.ledger.value.ix.bySession ==>
               w.ledger.value.ix.bySession[s].fingerprint in w.ledger.value.ix.receipts
    ensures Next(Asking(w, s, terms, payload, Looked(Prior(w.ledger.value.ix, s))), Decide(s))
            == Asking(w, s, terms, payload, Fresh)
  {
    hide Put;
    PutAsking(w, s, terms, payload, Looked(Prior(w.ledger.value.ix, s)), Fresh);
  }

  /** A first receipt is reserved once verified and approved. */
  lemma NewIsReserved(w: World, s: string, terms: Terms, payload: string, k: nat, payer: string, policy: string)
    requires w.ledger.Some? && !w.ledger.value.bad && k < |w.gateway.gateways| && payer != ""
    requires Fingerprint(terms, payload) !in w.gateway.gateways[k].journal.records
    requires var x := Reservation(s, Fingerprint(terms, payload), terms, payer, policy);
             Accepts(w.ledger.value.ix, x) && !Full(w.ledger.value, x)
    ensures var x := Reservation(s, Fingerprint(terms, payload), terms, payer, policy);
            Next(Next(Asking(w, s, terms, payload, Fresh), Verify(s, k, Some(payer))), Reserve(s, policy, Synced))
            == Asking(WriteTo(w, x, Synced), s, terms, payload, Ready(x))
  {
    hide Put, Accepts, Full, Apply, FileAfter;
    var x := Reservation(s, Fingerprint(terms, payload), terms, payer, policy);
    PutAsking(w, s, terms, payload, Fresh, Verified(payer));
    PutAsking(WriteTo(w, x, Synced), s, terms, payload, Verified(payer), Ready(x));
  }

  lemma CallsGateway(w: World, s: string, terms: Terms, payload: string, x: Receipt, k: nat, id: nat)
    requires w.ledger.Some? && id !in w.gateway.settlements && k < |w.gateway.gateways|
    ensures Next(Asking(w, s, terms, payload, Ready(x)), CallGateway(s, k, id))
            == Asking(w, s, terms, payload, Waiting(x, id)).(gateway := G.Next(w.gateway, G.Call(id, k, terms, payload)))
  {
    hide Put, G.Next;
    PutAsking(w, s, terms, payload, Ready(x), Waiting(x, id));
  }

  /** The receipt of a settled payment, a pass long from now. */
  function Paid(x: Receipt, tx: string, now: nat, pass: nat): Receipt {
    x.(state := Settled, transaction := tx, expires := now + pass)
  }

  /** The gateway's success becomes the session's settled receipt, durably. */
  lemma SuccessIsKept(w: World, s: string, terms: Terms, payload: string, x: Receipt, id: nat, res: Response)
    requires w.ledger.Some? && !w.ledger.value.bad && x.session == s && x.fingerprint in w.ledger.value.ix.byFingerprint
    requires id in w.gateway.settlements && w.gateway.settlements[id].at == G.Answered(Some(res))
    requires GatewaySafety.Matches(terms.network, x.payer, Some(res))
    requires Accepts(w.ledger.value.ix, Paid(x, res.transaction, w.now, w.pass))
    ensures var w' := Next(Next(Asking(w, s, terms, payload, Waiting(x, id)), TakeReply(s)), Conclude(s, Synced));
            var r := Paid(x, res.transaction, w.now, w.pass);
            && w'.ledger.Some? && !w'.ledger.value.bad && w'.gateway == w.gateway && s !in w'.requests
            && s in w'.ledger.value.ix.bySession && w'.ledger.value.ix.bySession[s] == r
            && w'.file.lines == w.file.lines + [r] && w'.now == w.now
  {
    hide Put, Accepts;
    PutAsking(w, s, terms, payload, Waiting(x, id), Replied(x, Some(res)));
  }

  // ----- the visitor's side -----

  lemma RecordedIsTold(g: G.World, id: nat, k: nat, terms: Terms, payload: string, records: map<Auth, J.Record>)
    requires Stands(g, id, k, terms, payload, G.Holding, records)
    requires var a := Fingerprint(terms, payload);
             J.SettledIn(records, a) && records[a].terms == terms && records[a].response.Some?
    ensures var g' := G.Next(g, G.Look(id));
            && id in g'.settlements && g'.sent == g.sent
            && g'.settlements[id].at == G.Answered(records[Fingerprint(terms, payload)].response)
  {
  }

  lemma HealthyRecords(g: G.World, k: nat, a: Auth)
    requires G.Inv(g) && k < |g.gateways| && !g.gateways[k].journal.bad
    ensures g.gateways[k].journal == J.Journal(G.Disk(g), false)
    ensures J.SettledIn(G.Disk(g), a) ==>
              var rec := G.Disk(g)[a];
              rec.response.Some? && rec.response.value.success && rec.response.value.network == a.network
              && rec.response.value.payer == rec.payer
  {
    hide G.Disk, G.SettlementsOk, G.OnceOk;
    assert G.InstanceOk(g, k);
    if a in G.Disk(g) {
      assert G.RecordOk(a, G.Disk(g)[a]);
    }
  }

  /** The open receipt of a session: indexed under it, not running, and free to be settled by an unredeemed
    * transaction. */
  lemma OpenFacts(w: World, s: string, a: Auth, x: Receipt, tx: string)
    requires Inv(w) && w.ledger.Some? && Open(w.ledger.value.ix, s, a, x) && s != "" && a.network != ""
    requires var key, redeemed := a.network + ":" + tx, w.ledger.value.ix.byTransaction;
             key in redeemed ==> redeemed[key] == a
    ensures x.session == s && x.fingerprint == a && a in w.ledger.value.ix.byFingerprint && !Live(x, w.now)
    ensures w.ledger.value.ix.bySession[s] == x
    ensures Accepts(w.ledger.value.ix, Paid(x, tx, w.now, w.pass))
  {
    hide G.Disk, G.Inv, RequestsOk, Replayed, Admitted, PaidFor;
    var ix := w.ledger.value.ix;
    assert ReceiptOk(ix, a, G.Disk(w.gateway), w.now);
  }

  lemma EightSteps(w: World, s: seq<Step>)
    requires |s| == 8
    ensures Run(w, s)
            == Next(Next(Next(Next(Next(Next(Next(Next(w, s[0]), s[1]), s[2]), s[3]), s[4]), s[5]), s[6]), s[7])
  {
    hide Next;
    assert s == s[..5] + s[5..] && s[5..] == [s[5], s[6], s[7]];
    P.RunConcat(w, s[..5], s[5..]);
    P.FiveSteps(w, s[..5]);
    P.ThreeSteps(Run(w, s[..5]), s[5], s[6], s[7]);
  }

  function RetrySteps(s: string, terms: Terms, payload: string, k: nat, id: nat): seq<Step> {
    [Begin(s, terms, payload), ReadPrior(s), Decide(s), CallGateway(s, k, id), Chain(G.TakeTurn(id)), Chain(G.Look(id)),
     TakeReply(s), Conclude(s, Synced)]
  }

  lemma ChainNext(w: World, g: G.Step)
    ensures Next(w, Chain(g)) == w.(gateway := G.Next(w.gateway, g))
  {
    hide G.Next;
  }

  lemma AskingGateway(w: World, s: string, terms: Terms, payload: string, pc: Pc, g: G.World)
    ensures Asking(w, s, terms, payload, pc).(gateway := g) == Asking(w.(gateway := g), s, terms, payload, pc)
  {
  }

  /** A visitor whose payment's outcome was unknown and who sends the same authorization again, once the gateway has
    * it settled for that payer, gets the pass: the receipt is settled with the recorded transaction and nothing is
    * submitted. The one exception is a transaction that another authorization has redeemed. */
  lemma RetryPays(w: World, s: string, terms: Terms, payload: string, x: Receipt, k: nat, id: nat, tx: string)
    requires Inv(w) && w.ledger.Some? && !w.ledger.value.bad && s !in w.requests && s != "" && terms.network != ""
    requires Open(w.ledger.value.ix, s, Fingerprint(terms, payload), x)
    requires k < |w.gateway.gateways| && !w.gateway.gateways[k].journal.bad
    requires id !in w.gateway.settlements && (k, terms.network) !in w.gateway.turn
    requires var a, disk := Fingerprint(terms, payload), G.Disk(w.gateway);
             && J.SettledIn(disk, a) && disk[a].terms == terms && disk[a].payer == x.payer
             && disk[a].response.Some? && disk[a].response.value.transaction == tx != ""
    requires var key, redeemed := terms.network + ":" + tx, w.ledger.value.ix.byTransaction;
             key in redeemed ==> redeemed[key] == Fingerprint(terms, payload)
    ensures var w' := Run(w, RetrySteps(s, terms, payload, k, id));
            && w'.ledger.Some? && s in w'.ledger.value.ix.bySession
            && w'.ledger.value.ix.bySession[s] == Paid(x, tx, w.now, w.pass)
            && w'.file.lines == w.file.lines + [Paid(x, tx, w.now, w.pass)]
            && w'.gateway.sent == w.gateway.sent && s !in w'.requests
            && (w.pass > 0 ==> Eligible(w', s))
  {
    hide Next, Run, Asking, G.Next, G.Inv, LedgerOk, RequestsOk, G.Disk, Accepts, Stands;
    var a, g := Fingerprint(terms, payload), w.gateway;
    HealthyRecords(g, k, a);
    OpenFacts(w, s, a, x, tx);
    Arrives(w, s, terms, payload);
    RetryGoesOn(w, s, terms, payload, x);
    CallsGateway(w, s, terms, payload, x, k, id);
    CallStands(g, id, k, terms, payload);
    var g1 := G.Next(g, G.Call(id, k, terms, payload));
    var g2 := G.Next(g1, G.TakeTurn(id));
    RecordedIsTold(g2, id, k, terms, payload, G.Disk(g));
    var w4 := Asking(w, s, terms, payload, Waiting(x, id)).(gateway := g1);
    ChainNext(w4, G.TakeTurn(id));
    ChainNext(w4.(gateway := g2), G.Look(id));
    AskingGateway(w, s, terms, payload, Waiting(x, id), G.Next(g2, G.Look(id)));
    SuccessIsKept(w.(gateway := G.Next(g2, G.Look(id))), s, terms, payload, x, id, G.Disk(g)[a].response.value);
    EightSteps(w, RetrySteps(s, terms, payload, k, id));
  }

  // ----- the first payment -----

  function FirstSteps(s: string, terms: Terms, payload: string, k: nat, id: nat, payer: string, policy: string,
                      res: Response): seq<Step> {
    [Begin(s, terms, payload), ReadPrior(s), Decide(s), Verify(s, k, Some(payer)), Reserve(s, policy, Synced)]
    + ([CallGateway(s, k, id)] + P.ChainSteps(SettleSteps(id, payer, res)) + [TakeReply(s), Conclude(s, Synced)])
  }

  lemma FirstRuns(w: World, s: string, terms: Terms, payload: string, k: nat, id: nat, payer: string, policy: string,
                  res: Response)
    ensures var w5 := Next(Next(Next(Next(Next(w, Begin(s, terms, payload)), ReadPrior(s)), Decide(s)),
                                Verify(s, k, Some(payer))), Reserve(s, policy, Synced));
            var w6 := Next(w5, CallGateway(s, k, id));
            Run(w, FirstSteps(s, terms, payload, k, id, payer, policy, res))
            == Next(Next(w6.(gateway := G.Run(w6.gateway, SettleSteps(id, payer, res))), TakeReply(s)), Conclude(s, Synced))
  {
    hide Next, G.Run, SettleSteps, Run;
    var front := [Begin(s, terms, payload), ReadPrior(s), Decide(s), Verify(s, k, Some(payer)), Reserve(s, policy, Synced)];
    var chain, end := P.ChainSteps(SettleSteps(id, payer, res)), [TakeReply(s), Conclude(s, Synced)];
    P.RunConcat(w, front, [CallGateway(s, k, id)] + chain + end);
    P.FiveSteps(w, front);
    var w5 := Run(w, front);
    P.RunConcat(w5, [CallGateway(s, k, id)] + chain, end);
    P.RunConcat(w5, [CallGateway(s, k, id)], chain);
    P.OneStep(w5, CallGateway(s, k, id));
    var w6 := Next(w5, CallGateway(s, k, id));
    P.ChainRuns(w6, SettleSteps(id, payer, res));
    var w7 := w6.(gateway := G.Run(w6.gateway, SettleSteps(id, payer, res)));
    assert end == [TakeReply(s)] + [Conclude(s, Synced)];
    P.RunConcat(w7, [TakeReply(s)], [Conclude(s, Synced)]);
    P.OneStep(w7, TakeReply(s));
    P.OneStep(Next(w7, TakeReply(s)), Conclude(s, Synced));
  }

  /** The ledger after the reservation takes the settled receipt. */
  lemma ReservedFacts(w: World, s: string, a: Auth, x: Receipt, tx: string)
    requires Inv(w) && w.ledger.Some? && !w.ledger.value.bad && s != "" && a.network != "" && a !in w.ledger.value.ix.receipts
    requires x.session == s && x.fingerprint == a && x.network == a.network && x.transaction == ""
    requires !Full(w.ledger.value, x) && a.network + ":" + tx !in w.ledger.value.ix.byTransaction
    ensures Accepts(w.ledger.value.ix, x)
    ensures var l := WriteReceipt(w.ledger.value, x, Synced);
            && !l.bad && a in l.ix.byFingerprint && Accepts(l.ix, Paid(x, tx, w.now, w.pass))
  {
    hide G.Disk, G.Inv, RequestsOk, Replayed, Admitted, PaidFor, Full;
  }

  lemma WrittenWorld(w: World, x: Receipt)
    requires w.ledger.Some? && !Refuses(w.ledger.value, x)
    ensures var w' := WriteTo(w, x, Synced);
            && w' == w.(ledger := Some(WriteReceipt(w.ledger.value, x, Synced)), file := w'.file)
            && w'.file.lines == w.file.lines + [x]
  {
    hide Refuses, Apply;
  }

  /** A visitor who owes nothing and pays with a new authorization that is verified, approved and confirmed by its
    * chain gets the pass: one submission, and a settled receipt with the chain's transaction, on file. */
  lemma FirstPaymentPays(w: World, s: string, terms: Terms, payload: string, k: nat, id: nat, payer: string,
                         policy: string, res: Response)
    requires Inv(w) && w.ledger.Some? && !w.ledger.value.bad && s !in w.requests && s != "" && terms.network != ""
    requires var a := Fingerprint(terms, payload);
             && Clear(w.ledger.value.ix, s, a, w.now) && a !in w.ledger.value.ix.receipts
             && !Full(w.ledger.value, Reservation(s, a, terms, payer, policy)) && a !in G.Disk(w.gateway)
    requires k < |w.gateway.gateways| && !w.gateway.gateways[k].journal.bad
    requires id !in w.gateway.settlements && (k, terms.network) !in w.gateway.turn
    requires payer != "" && GatewaySafety.Matches(terms.network, payer, Some(res))
    requires terms.network + ":" + res.transaction !in w.ledger.value.ix.byTransaction
    ensures var a := Fingerprint(terms, payload);
            var x := Reservation(s, a, terms, payer, policy);
            var r := Paid(x, res.transaction, w.now, w.pass);
            var w' := Run(w, FirstSteps(s, terms, payload, k, id, payer, policy, res));
            && w'.ledger.Some? && s in w'.ledger.value.ix.bySession && w'.ledger.value.ix.bySession[s] == r
            && w'.file.lines == w.file.lines + [x] + [r]
            && w'.gateway.sent == w.gateway.sent + [a] && s !in w'.requests
            && (w.pass > 0 ==> Eligible(w', s))
  {
    hide Next, Run, Asking, G.Next, G.Run, G.Inv, LedgerOk, RequestsOk, G.Disk, Accepts, Full, WriteTo, WriteReceipt,
      SettleSteps, Clear;
    var a := Fingerprint(terms, payload);
    var x := Reservation(s, a, terms, payer, policy);
    ReservedFacts(w, s, a, x, res.transaction);
    ClearFacts(w, s, a);
    HealthyRecords(w.gateway, k, a);
    Arrives(w, s, terms, payload);
    NewGoesOn(w, s, terms, payload);
    NewIsReserved(w, s, terms, payload, k, payer, policy);
    WrittenWorld(w, x);
    var w5 := WriteTo(w, x, Synced);
    CallsGateway(w5, s, terms, payload, x, k, id);
    NewIsSettled(w.gateway, id, k, terms, payload, payer, res);
    var g' := G.Run(G.Next(w.gateway, G.Call(id, k, terms, payload)), SettleSteps(id, payer, res));
    AskingGateway(w5, s, terms, payload, Waiting(x, id), g');
    SuccessIsKept(w5.(gateway := g'), s, terms, payload, x, id, res);
    FirstRuns(w, s, terms, payload, k, id, payer, policy, res);
  }

  lemma ClearFacts(w: World, s: string, a: Auth)
    requires Inv(w) && w.ledger.Some? && Clear(w.ledger.value.ix, s, a, w.now)
    ensures s in w.ledger.value.ix.bySession ==>
              && !Live(w.ledger.value.ix.bySession[s], w.now)
              && w.ledger.value.ix.bySession[s].fingerprint in w.ledger.value.ix.receipts
  {
    hide G.Disk, G.Inv, RequestsOk, Replayed, Admitted, PaidFor;
  }
}
