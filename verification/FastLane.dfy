/** Paying for the fast lane: requests of many visitors over one receipt ledger and the in-process gateway,
  * with timeouts, failed writes, crashes and reopenings (internal/fastlane/service.go). */
module FastLane {
  import opened Results
  import opened DurableLog
  import opened PaymentTypes
  import opened ReceiptLedger
  import J = GatewayJournal
  import G = Gateway
  import GatewaySafety

  /** How far one payment request has come. */
  datatype Pc =
    | Arrived
    | Looked(prior: Option<Receipt>)
    | Fresh
    | Verified(payer: string)
    | Ready(receipt: Receipt)
    | Waiting(receipt: Receipt, call: nat)
    | Replied(receipt: Receipt, reply: Option<Response>)

  datatype Request = Request(auth: Auth, terms: Terms, payload: string, at: Pc)

  /** requests is keyed by session: the active guard lets one request of a session in at a time.
    * ledger is None while no service runs. */
  datatype World = World(now: nat, pass: nat, max: nat, gateway: G.World,
                         file: File<Receipt>, ledger: Option<Ledger>, requests: map<string, Request>)

  datatype Step =
    | Tick(elapsed: nat)
    | Chain(step: G.Step)
    | OpenService
    | CloseLedger
    | Exit
    | Begin(session: string, terms: Terms, payload: string)
    | GiveUp(session: string)
    | ReadPrior(session: string)
    | Decide(session: string)
    | Verify(session: string, instance: nat, preflight: Option<string>)
    | Reserve(session: string, policy: string, fate: Fate)
    | CallGateway(session: string, instance: nat, id: nat)
    | TakeReply(session: string)
    | TimeOut(session: string)
    | Conclude(session: string, fate: Fate)

  /** How the lane is set up: seconds a pass lasts, receipts the ledger takes, and how the two logs write a line. */
  datatype Setup = Setup(pass: nat, max: nat, records: Codec<J.Record>, receipts: Codec<Receipt>)

  /** Both files empty, nothing running. */
  function Start(u: Setup): World {
    World(0, u.pass, u.max, G.Start(u.records), File(u.receipts, [], false), None, map[])
  }

  predicate Live(r: Receipt, now: nat) {
    r.state.Settled? && now < r.expires
  }

  function Prior(ix: Indexes, session: string): Option<Receipt> {
    if session in ix.bySession then Some(ix.bySession[session]) else None
  }

  datatype Verdict = Leave | PayAnew | Retry(receipt: Receipt)

  /** What to do with an authorization, given the session's latest receipt read earlier. */
  function Judge(ix: Indexes, session: string, auth: Auth, prior: Option<Receipt>): Verdict {
    if auth in ix.receipts && (ix.receipts[auth].session != session || ix.receipts[auth].state.Settled?) then Leave
    else
      match prior
      case None => PayAnew
      case Some(p) =>
        if p.fingerprint == auth then (if p.state.Settled? then Leave else Retry(p))
        else if p.state.Settled? then PayAnew
        else Leave
  }

  function Reservation(session: string, auth: Auth, terms: Terms, payer: string, policy: string): Receipt {
    Receipt(session, auth, Pending, terms.network, payer, "", policy, 0)
  }

  /** The receipt a reply leads to: settled only if it names the right network, payer and a transaction. */
  function Outcome(x: Receipt, terms: Terms, reply: Option<Response>, now: nat, pass: nat): Receipt {
    match reply
    case Some(res) =>
      if res.success && res.transaction != "" && res.network == terms.network && res.payer == x.payer
      then x.(state := Settled, transaction := res.transaction, expires := now + pass)
      else x.(state := Unknown)
    case None => x.(state := Unknown)
  }

  function Put(w: World, s: string, pc: Pc): World
    requires s in w.requests
  {
    w.(requests := w.requests[s := w.requests[s].(at := pc)])
  }

  function Done(w: World, s: string): World {
    w.(requests := w.requests - {s})
  }

  function WriteTo(w: World, r: Receipt, fate: Fate): World
    requires w.ledger.Some?
  {
    w.(ledger := Some(WriteReceipt(w.ledger.value, r, fate)), file := FileAfter(w.ledger.value, w.file, r, fate))
  }

  function Serve(w: World, s: string, step: Step): World
    requires s in w.requests && w.ledger.Some?
  {
    var q, l := w.requests[s], w.ledger.value;
    match (step, q.at)
    case (ReadPrior(_), Arrived) =>
      var prior := Prior(l.ix, s);
      if prior.Some? && Live(prior.value, w.now) then Done(w, s) else Put(w, s, Looked(prior))
    case (Decide(_), Looked(prior)) =>
      (match Judge(l.ix, s, q.auth, prior)
       case Leave => Done(w, s)
       case PayAnew => Put(w, s, Fresh)
       case Retry(p) => Put(w, s, Ready(p)))
    case (Verify(_, g, preflight), Fresh) =>
      if g >= |w.gateway.gateways| then w
      else
        (match G.VerifyAnswer(w.gateway.gateways[g].journal, q.auth, q.terms, preflight)
         case None => Done(w, s)
         case Some(payer) => if payer == "" then Done(w, s) else Put(w, s, Verified(payer)))
    case (Reserve(_, policy, fate), Verified(payer)) =>
      var x := Reservation(s, q.auth, q.terms, payer, policy);
      var w' := WriteTo(w, x, fate);
      if Acknowledges(l, x, fate) then Put(w', s, Ready(x)) else Done(w', s)
    case (CallGateway(_, g, id), Ready(x)) =>
      var call := G.Call(id, g, q.terms, q.payload);
      if id in w.gateway.settlements || g >= |w.gateway.gateways| then w
      else Put(w, s, Waiting(x, id)).(gateway := G.Next(w.gateway, call))
    case (TakeReply(_), Waiting(x, id)) =>
      if id in w.gateway.settlements && w.gateway.settlements[id].at.Answered?
      then Put(w, s, Replied(x, w.gateway.settlements[id].at.answer))
      else w
    case (TimeOut(_), Waiting(x, id)) => Put(w, s, Replied(x, None))
    case (Conclude(_, fate), Replied(x, reply)) =>
      Done(WriteTo(w, Outcome(x, q.terms, reply, w.now, w.pass), fate), s)
    case _ => w
  }

  /** One step; a step that is not possible in w leaves it alone. */
  function Next(w: World, step: Step): World {
    match step
    case Tick(elapsed) => w.(now := w.now + elapsed)
    case Chain(g) => w.(gateway := G.Next(w.gateway, g))
    case OpenService =>
      if w.ledger.Some? then w else w.(ledger := Opened(w.file, w.max))
    case CloseLedger =>
      if w.ledger.None? then w else w.(ledger := Some(w.ledger.value.(bad := true)))
    case Exit => w.(ledger := None, requests := map[])
    case Begin(s, terms, payload) =>
      if w.ledger.None? || s == "" || terms.network == "" || s in w.requests then w
      else w.(requests := w.requests[s := Request(Fingerprint(terms, payload), terms, payload, Arrived)])
    case GiveUp(s) =>
      if s in w.requests && !w.requests[s].at.Waiting? && !w.requests[s].at.Replied? then Done(w, s) else w
    case _ =>
      if w.ledger.Some? && step.session in w.requests then Serve(w, step.session, step) else w
  }

  function Run(w: World, steps: seq<Step>): World
    decreases |steps|
  {
    if steps == [] then w else Run(Next(w, steps[0]), steps[1..])
  }

  /** A durable, unexpired grant admits the session while the ledger is healthy. */
  predicate Eligible(w: World, s: string) {
    && w.ledger.Some? && !w.ledger.value.bad
    && s in w.ledger.value.ix.bySession && Live(w.ledger.value.ix.bySession[s], w.now)
  }

  // ----- the invariant -----

  /** The gateway has on file, settled, the very payment the receipt stands for. */
  predicate PaidFor(disk: map<Auth, J.Record>, r: Receipt) {
    && J.SettledIn(disk, r.fingerprint)
    && disk[r.fingerprint].payer == r.payer
    && disk[r.fingerprint].response == Some(Response(true, r.transaction, r.network, r.payer))
  }

  predicate Latest(ix: Indexes, fp: Auth)
    requires fp in ix.receipts
  {
    var s := ix.receipts[fp].session;
    s in ix.bySession && ix.bySession[s].fingerprint == fp
  }

  ghost predicate ReceiptOk(ix: Indexes, fp: Auth, disk: map<Auth, J.Record>, now: nat)
    requires fp in ix.receipts
  {
    var r := ix.receipts[fp];
    && r.network == fp.network
    && (if r.state.Settled? then r.transaction != "" && PaidFor(disk, r) else r.transaction == "")
    && (Latest(ix, fp) || (r.state.Settled? && r.expires <= now))
  }

  ghost predicate IndexesOk(ix: Indexes, disk: map<Auth, J.Record>, now: nat) {
    && Consistent(ix)
    && (forall fp :: fp in ix.receipts ==> ReceiptOk(ix, fp, disk, now))
    && (forall k :: k in ix.byTransaction ==>
          ix.byTransaction[k] in ix.receipts && KeyOf(ix.receipts[ix.byTransaction[k]]) == k
          && ix.receipts[ix.byTransaction[k]].transaction != "")
  }

  ghost predicate LedgerOk(w: World) {
    && Admitted(w.file.lines)
    && IndexesOk(Replayed(w.file.lines), G.Disk(w.gateway), w.now)
    && (w.ledger.Some? ==>
          && IndexesOk(w.ledger.value.ix, G.Disk(w.gateway), w.now)
          && (!w.ledger.value.bad ==> !w.file.torn && w.ledger.value.ix == Replayed(w.file.lines)))
  }

  /** The session's open payment is its latest receipt, still unsettled. */
  predicate Open(ix: Indexes, s: string, auth: Auth, x: Receipt) {
    s in ix.bySession && ix.bySession[s] == x && x.fingerprint == auth && !x.state.Settled?
  }

  /** The session owes nothing: no receipt for this authorization, and its latest is settled and over. */
  predicate Clear(ix: Indexes, s: string, auth: Auth, now: nat) {
    && (auth in ix.receipts ==> ix.receipts[auth].session != s)
    && (s in ix.bySession ==> ix.bySession[s].state.Settled? && ix.bySession[s].expires <= now)
  }

  ghost predicate RequestOk(q: Request, s: string, ix: Indexes, g: G.World, now: nat) {
    && s != "" && q.auth == Fingerprint(q.terms, q.payload)
    && match q.at
       case Arrived => true
       case Looked(prior) => prior == Prior(ix, s) && (prior.Some? ==> !Live(prior.value, now))
       case Fresh => Clear(ix, s, q.auth, now)
       case Verified(_) => Clear(ix, s, q.auth, now)
       case Ready(x) => Open(ix, s, q.auth, x)
       case Waiting(x, id) =>
         Open(ix, s, q.auth, x) && id in g.settlements && g.settlements[id].auth == q.auth
       case Replied(x, reply) =>
         Open(ix, s, q.auth, x)
         && (reply.Some? && reply.value.success ==> G.Backed(G.Disk(g), q.auth, reply.value))
  }

  ghost predicate RequestsOk(w: World) {
    && (w.ledger.None? ==> w.requests == map[])
    && (w.ledger.Some? ==>
          forall s :: s in w.requests ==> RequestOk(w.requests[s], s, w.ledger.value.ix, w.gateway, w.now))
  }

  ghost predicate Inv(w: World) {
    G.Inv(w.gateway) && LedgerOk(w) && RequestsOk(w)
  }

  // ----- time and the gateway only add -----

  /** The gateway goes on: settled records stay, and calls keep their authorization. */
  ghost predicate Goes(g: G.World, g': G.World) {
    && (forall a :: J.SettledIn(G.Disk(g), a) ==> J.SettledIn(G.Disk(g'), a) && G.Disk(g')[a] == G.Disk(g)[a])
    && (forall id :: id in g.settlements ==> id in g'.settlements && g'.settlements[id].auth == g.settlements[id].auth)
  }

  lemma GatewayGoes(g: G.World, s: G.Step)
    requires G.Inv(g)
    ensures Goes(g, G.Next(g, s)) && G.Inv(G.Next(g, s))
  {
    hide G.Disk, G.Inv;
    G.NextKeeps(g, s);
    forall a | J.SettledIn(G.Disk(g), a)
      ensures J.SettledIn(G.Disk(G.Next(g, s)), a) && G.Disk(G.Next(g, s))[a] == G.Disk(g)[a]
    {
      GatewaySafety.SettledStays(g, s, a);
    }
    CallsStay(g, s);
  }

  lemma CallsStay(g: G.World, s: G.Step)
    ensures forall id :: id in g.settlements ==>
              id in G.Next(g, s).settlements && G.Next(g, s).settlements[id].auth == g.settlements[id].auth
  {
    hide J.WriteRecord, J.FileAfter, J.Opened;
  }

  lemma IndexesLater(ix: Indexes, g: G.World, g': G.World, now: nat, now': nat)
    requires IndexesOk(ix, G.Disk(g), now) && Goes(g, g') && now <= now'
    ensures IndexesOk(ix, G.Disk(g'), now')
  {
    hide G.Disk, Consistent;
    forall fp | fp in ix.receipts ensures ReceiptOk(ix, fp, G.Disk(g'), now') {
      assert ReceiptOk(ix, fp, G.Disk(g), now);
    }
  }

  lemma RequestLater(q: Request, s: string, ix: Indexes, g: G.World, g': G.World, now: nat, now': nat)
    requires RequestOk(q, s, ix, g, now) && Goes(g, g') && now <= now'
    ensures RequestOk(q, s, ix, g', now')
  {
    hide G.Disk;
  }

  lemma Later(w: World, w': World)
    requires Inv(w) && G.Inv(w'.gateway) && Goes(w.gateway, w'.gateway) && w.now <= w'.now
    requires w' == w.(gateway := w'.gateway, now := w'.now)
    ensures Inv(w')
  {
    hide G.Disk, G.Inv, IndexesOk, RequestOk, Goes, Admitted, Replayed;
    IndexesLater(Replayed(w.file.lines), w.gateway, w'.gateway, w.now, w'.now);
    if w.ledger.Some? {
      IndexesLater(w.ledger.value.ix, w.gateway, w'.gateway, w.now, w'.now);
      forall s | s in w'.requests ensures RequestOk(w'.requests[s], s, w.ledger.value.ix, w'.gateway, w'.now) {
        RequestLater(w.requests[s], s, w.ledger.value.ix, w.gateway, w'.gateway, w.now, w'.now);
      }
    }
  }

  // ----- writing a receipt -----

  /** What the protocol may write: a reservation when the session owes nothing, or the outcome of its open payment. */
  ghost predicate Writable(ix: Indexes, r: Receipt, disk: map<Auth, J.Record>, now: nat) {
    && r.network == r.fingerprint.network
    && (if r.state.Settled? then r.transaction != "" && PaidFor(disk, r) else r.transaction == "")
    && (|| Clear(ix, r.session, r.fingerprint, now)
        || (exists x :: Open(ix, r.session, r.fingerprint, x)))
  }

  lemma ApplyReceipts(ix: Indexes, r: Receipt, disk: map<Auth, J.Record>, now: nat)
    requires IndexesOk(ix, disk, now) && Accepts(ix, r) && Writable(ix, r, disk, now)
    ensures var ix' := Apply(ix, r);
            forall fp :: fp in ix'.receipts ==> ReceiptOk(ix', fp, disk, now)
  {
    hide Writable, Accepts, PaidFor;
    forall fp | fp in Apply(ix, r).receipts ensures ReceiptOk(Apply(ix, r), fp, disk, now) {
      if fp == r.fingerprint {
        ApplyOwn(ix, r, disk, now);
      } else {
        assert ReceiptOk(ix, fp, disk, now);
        OldReceiptSettled(ix, r, fp, disk, now);
      }
    }
  }

  lemma ApplyOwn(ix: Indexes, r: Receipt, disk: map<Auth, J.Record>, now: nat)
    requires Writable(ix, r, disk, now)
    ensures r.fingerprint in Apply(ix, r).receipts && ReceiptOk(Apply(ix, r), r.fingerprint, disk, now)
  {
  }

  /** When another of the session's authorizations is written, the one before it is settled and over. */
  lemma OldReceiptSettled(ix: Indexes, r: Receipt, fp: Auth, disk: map<Auth, J.Record>, now: nat)
    requires IndexesOk(ix, disk, now) && Writable(ix, r, disk, now) && fp in ix.receipts && fp != r.fingerprint
    requires ReceiptOk(ix, fp, disk, now)
    ensures ix.receipts[fp].session == r.session ==> ix.receipts[fp].state.Settled? && ix.receipts[fp].expires <= now
  {
    hide ReceiptOk, PaidFor, KeyOf;
    if ix.receipts[fp].session == r.session && Latest(ix, fp) {
      assert ix.bySession[r.session] == ix.receipts[fp];
      assert Clear(ix, r.session, r.fingerprint, now);
    } else if ix.receipts[fp].session == r.session {
      NotLatestOver(ix, fp, disk, now);
    }
  }

  lemma NotLatestOver(ix: Indexes, fp: Auth, disk: map<Auth, J.Record>, now: nat)
    requires fp in ix.receipts && ReceiptOk(ix, fp, disk, now) && !Latest(ix, fp)
    ensures ix.receipts[fp].state.Settled? && ix.receipts[fp].expires <= now
  {
  }

  lemma ApplyTransactions(ix: Indexes, r: Receipt, disk: map<Auth, J.Record>, now: nat)
    requires IndexesOk(ix, disk, now) && Accepts(ix, r) && Writable(ix, r, disk, now)
    ensures var ix' := Apply(ix, r);
            forall k :: k in ix'.byTransaction ==>
              ix'.byTransaction[k] in ix'.receipts && KeyOf(ix'.receipts[ix'.byTransaction[k]]) == k
              && ix'.receipts[ix'.byTransaction[k]].transaction != ""
  {
    if r.fingerprint in ix.receipts {
      assert ReceiptOk(ix, r.fingerprint, disk, now);
      assert ix.receipts[r.fingerprint].session == r.session;
      assert !Clear(ix, r.session, r.fingerprint, now);
      assert ix.receipts[r.fingerprint].transaction == "";
    }
    var ix' := Apply(ix, r);
    forall k | k in ix'.byTransaction
      ensures ix'.byTransaction[k] in ix'.receipts && KeyOf(ix'.receipts[ix'.byTransaction[k]]) == k
              && ix'.receipts[ix'.byTransaction[k]].transaction != ""
    {
      if k in ix.byTransaction && !(r.transaction != "" && k == KeyOf(r)) {
        assert ix.byTransaction[k] != r.fingerprint;
      }
    }
  }

  lemma ApplyOk(ix: Indexes, r: Receipt, disk: map<Auth, J.Record>, now: nat)
    requires IndexesOk(ix, disk, now) && Accepts(ix, r) && Writable(ix, r, disk, now)
    ensures IndexesOk(Apply(ix, r), disk, now)
  {
    hide ReceiptOk, Writable, Accepts, Apply;
    ApplyConsistent(ix, r);
    ApplyReceipts(ix, r, disk, now);
    ApplyTransactions(ix, r, disk, now);
  }

  lemma WriteKeepsLedger(w: World, r: Receipt, fate: Fate)
    requires Inv(w) && w.ledger.Some?
    requires Writable(w.ledger.value.ix, r, G.Disk(w.gateway), w.now)
    ensures LedgerOk(WriteTo(w, r, fate))
  {
    hide G.Disk, G.Inv, IndexesOk, Writable, Apply, Accepts, Full, RequestsOk;
    ReplayedSnoc(w.file.lines, r);
    var l := w.ledger.value;
    if !Refuses(l, r) {
      ApplyOk(l.ix, r, G.Disk(w.gateway), w.now);
    }
  }

  /** A write for one session leaves every other session's request as it was. */
  lemma OtherRequests(q: Request, s: string, l: Ledger, r: Receipt, fate: Fate, g: G.World, now: nat)
    requires RequestOk(q, s, l.ix, g, now) && r.session != s
    ensures RequestOk(q, s, WriteReceipt(l, r, fate).ix, g, now)
  {
    hide G.Disk, Accepts, Full;
  }

  lemma WriteKeepsOthers(w: World, r: Receipt, fate: Fate, w': World)
    requires RequestsOk(w) && w.ledger.Some?
    requires w'.ledger == WriteTo(w, r, fate).ledger && w'.gateway == w.gateway && w'.now == w.now
    requires forall s :: s in w'.requests && s != r.session ==> s in w.requests && w'.requests[s] == w.requests[s]
    requires r.session in w'.requests ==> RequestOk(w'.requests[r.session], r.session, w'.ledger.value.ix, w.gateway, w.now)
    ensures RequestsOk(w')
  {
    hide G.Disk, RequestOk, WriteReceipt, FileAfter;
    var l := w.ledger.value;
    forall s | s in w'.requests ensures RequestOk(w'.requests[s], s, w'.ledger.value.ix, w'.gateway, w'.now) {
      if s != r.session {
        OtherRequests(w.requests[s], s, l, r, fate, w.gateway, w.now);
      }
    }
  }

  lemma ReserveKeeps(w: World, s: string, policy: string, fate: Fate)
    requires Inv(w) && w.ledger.Some? && s in w.requests && w.requests[s].at.Verified?
    ensures Inv(Next(w, Reserve(s, policy, fate)))
  {
    hide G.Disk, G.Inv, LedgerOk, Full, Replayed, Admitted;
    var q, l := w.requests[s], w.ledger.value;
    assert RequestOk(q, s, l.ix, w.gateway, w.now);
    var x := Reservation(s, q.auth, q.terms, q.at.payer, policy);
    WriteKeepsLedger(w, x, fate);
    var w' := Next(w, Reserve(s, policy, fate));
    SameLedger(WriteTo(w, x, fate), w');
    WriteKeepsOthers(w, x, fate, w');
  }

  lemma SameLedger(w: World, w': World)
    requires LedgerOk(w) && w' == w.(requests := w'.requests)
    ensures LedgerOk(w')
  {
    hide IndexesOk, Admitted, Replayed, G.Disk;
    assert G.Disk(w'.gateway) == G.Disk(w.gateway);
  }

  lemma ConcludeKeeps(w: World, s: string, fate: Fate)
    requires Inv(w) && w.ledger.Some? && s in w.requests && w.requests[s].at.Replied?
    ensures Inv(Next(w, Conclude(s, fate)))
  {
    hide G.Disk, G.Inv, LedgerOk, Full, Replayed, Admitted;
    var q, l := w.requests[s], w.ledger.value;
    assert RequestOk(q, s, l.ix, w.gateway, w.now);
    var x := Outcome(q.at.receipt, q.terms, q.at.reply, w.now, w.pass);
    OpenReceiptOk(w, s);
    assert Open(l.ix, s, q.auth, q.at.receipt);
    WriteKeepsLedger(w, x, fate);
    var w' := Next(w, Conclude(s, fate));
    SameLedger(WriteTo(w, x, fate), w');
    WriteKeepsOthers(w, x, fate, w');
  }

  lemma OpenReceiptOk(w: World, s: string)
    requires LedgerOk(w) && w.ledger.Some? && s in w.ledger.value.ix.bySession
    ensures var x := w.ledger.value.ix.bySession[s];
            && x.session == s && x.network == x.fingerprint.network
            && (!x.state.Settled? ==> x.transaction == "")
  {
    hide G.Disk, Replayed, Admitted;
    var ix := w.ledger.value.ix;
    assert ReceiptOk(ix, ix.bySession[s].fingerprint, G.Disk(w.gateway), w.now);
  }

  // ----- the other steps -----

  /** Moving one request, in order, disturbs nothing else. */
  lemma PutKeeps(w: World, w': World, s: string)
    requires Inv(w) && w.ledger.Some? && w' == w.(requests := w'.requests)
    requires forall k :: k in w'.requests && k != s ==> k in w.requests && w'.requests[k] == w.requests[k]
    requires s in w'.requests ==> RequestOk(w'.requests[s], s, w.ledger.value.ix, w.gateway, w.now)
    ensures Inv(w')
  {
    hide G.Disk, G.Inv, LedgerOk, RequestOk;
    SameLedger(w, w');
  }

  lemma DecideKeeps(w: World, s: string)
    requires Inv(w) && w.ledger.Some? && s in w.requests && w.requests[s].at.Looked?
    ensures Inv(Next(w, Decide(s)))
  {
    hide G.Disk, G.Inv, LedgerOk;
    var q, ix := w.requests[s], w.ledger.value.ix;
    assert RequestOk(q, s, ix, w.gateway, w.now);
    JudgeClear(w, s, q.auth);
    PutKeeps(w, Next(w, Decide(s)), s);
  }

  /** A new authorization goes on only for a session with no open payment. */
  lemma JudgeClear(w: World, s: string, auth: Auth)
    requires Inv(w) && w.ledger.Some?
    requires s in w.ledger.value.ix.bySession ==> !Live(w.ledger.value.ix.bySession[s], w.now)
    ensures var ix := w.ledger.value.ix;
            match Judge(ix, s, auth, Prior(ix, s))
            case Leave => true
            case PayAnew => Clear(ix, s, auth, w.now)
            case Retry(p) => Open(ix, s, auth, p)
  {
    hide G.Disk, G.Inv, Replayed, Admitted, Consistent, PaidFor;
    var ix := w.ledger.value.ix;
    LatestSession(ix);
    if auth in ix.receipts {
      assert ReceiptOk(ix, auth, G.Disk(w.gateway), w.now);
    }
  }

  lemma LatestSession(ix: Indexes)
    requires Consistent(ix)
    ensures forall s :: s in ix.bySession ==>
              ix.bySession[s].session == s && ix.bySession[s].fingerprint in ix.receipts
              && ix.receipts[ix.bySession[s].fingerprint] == ix.bySession[s]
    ensures forall fp :: fp in ix.receipts ==> ix.receipts[fp].session in ix.bySession
  {
  }

  lemma CallKeeps(w: World, s: string, g: nat, id: nat)
    requires Inv(w) && w.ledger.Some? && s in w.requests && w.requests[s].at.Ready?
    ensures Inv(Next(w, CallGateway(s, g, id)))
  {
    hide G.Disk, G.Inv, LedgerOk, Goes;
    var q, ix := w.requests[s], w.ledger.value.ix;
    assert RequestOk(q, s, ix, w.gateway, w.now);
    var call := G.Call(id, g, q.terms, q.payload);
    var w1 := w.(gateway := G.Next(w.gateway, call));
    GatewayGoes(w.gateway, call);
    Later(w, w1);
    PutKeeps(w1, Next(w, CallGateway(s, g, id)), s);
  }

  lemma ReplyKeeps(w: World, s: string)
    requires Inv(w) && w.ledger.Some? && s in w.requests && w.requests[s].at.Waiting?
    ensures Inv(Next(w, TakeReply(s)))
  {
    hide G.Disk, LedgerOk, G.FileOk, G.SettlementsOk, G.OnceOk, G.Backed;
    var q, ix := w.requests[s], w.ledger.value.ix;
    assert RequestOk(q, s, ix, w.gateway, w.now);
    if w.gateway.settlements[q.at.call].at.Answered? {
      AnsweredBacked(w.gateway, q.at.call);
      PutKeeps(w, Next(w, TakeReply(s)), s);
    }
  }

  lemma AnsweredBacked(g: G.World, id: nat)
    requires G.Inv(g) && id in g.settlements && g.settlements[id].at.Answered?
    ensures var answer := g.settlements[id].at.answer;
            answer.Some? && answer.value.success ==> G.Backed(G.Disk(g), g.settlements[id].auth, answer.value)
  {
    hide G.Disk, G.FileOk, G.OnceOk;
    G.AtHolds(g, id);
  }

  lemma ServeKeeps(w: World, s: string, step: Step)
    requires Inv(w) && w.ledger.Some? && s in w.requests && Next(w, step) == Serve(w, s, step)
    requires step.ReadPrior? || step.Decide? || step.Verify? || step.Reserve? || step.CallGateway? || step.TakeReply?
             || step.TimeOut? || step.Conclude?
    requires step.session == s
    ensures Inv(Next(w, step))
  {
    hide G.Disk, G.Inv, LedgerOk, G.VerifyAnswer, Judge, WriteReceipt, FileAfter, Acknowledges, Outcome;
    var q := w.requests[s];
    assert RequestOk(q, s, w.ledger.value.ix, w.gateway, w.now);
    match (step, q.at)
    case (ReadPrior(_), Arrived) => PutKeeps(w, Next(w, step), s);
    case (Decide(_), Looked(_)) => DecideKeeps(w, s);
    case (Verify(_, g, preflight), Fresh) => PutKeeps(w, Next(w, step), s);
    case (Reserve(_, policy, fate), Verified(_)) => ReserveKeeps(w, s, policy, fate);
    case (CallGateway(_, g, id), Ready(_)) => CallKeeps(w, s, g, id);
    case (TakeReply(_), Waiting(_, _)) => ReplyKeeps(w, s);
    case (TimeOut(_), Waiting(_, _)) => PutKeeps(w, Next(w, step), s);
    case (Conclude(_, fate), Replied(_, _)) => ConcludeKeeps(w, s, fate);
    case _ =>
  }

  lemma OpenServiceKeeps(w: World)
    requires Inv(w) && w.ledger.None?
    ensures Inv(Next(w, OpenService))
  {
    hide G.Disk, G.Inv, IndexesOk, Admitted, Replayed;
    assert G.Disk(Next(w, OpenService).gateway) == G.Disk(w.gateway);
  }

  lemma StopKeeps(w: World)
    requires Inv(w)
    ensures Inv(Next(w, CloseLedger)) && Inv(Next(w, Exit))
  {
    hide G.Disk, G.Inv, IndexesOk, Admitted, Replayed, RequestOk;
    assert G.Disk(Next(w, CloseLedger).gateway) == G.Disk(w.gateway);
  }

  lemma ArriveKeeps(w: World, s: string, terms: Terms, payload: string)
    requires Inv(w)
    ensures Inv(Next(w, Begin(s, terms, payload))) && Inv(Next(w, GiveUp(s)))
  {
    hide G.Disk, G.Inv, LedgerOk;
    if w.ledger.Some? {
      PutKeeps(w, Next(w, Begin(s, terms, payload)), s);
      PutKeeps(w, Next(w, GiveUp(s)), s);
    }
  }

  lemma NextKeeps(w: World, step: Step)
    requires Inv(w)
    ensures Inv(Next(w, step))
  {
    hide G.Disk, G.Inv, LedgerOk, RequestsOk, Goes;
    match step
    case Tick(elapsed) =>
      GoesNowhere(w.gateway);
      Later(w, Next(w, step));
    case Chain(g) =>
      GatewayGoes(w.gateway, g);
      Later(w, Next(w, step));
    case OpenService =>
      if w.ledger.None? { OpenServiceKeeps(w); }
    case CloseLedger => StopKeeps(w);
    case Exit => StopKeeps(w);
    case Begin(s, terms, payload) => ArriveKeeps(w, s, terms, payload);
    case GiveUp(s) => ArriveKeeps(w, s, Terms("", "", ""), "");
    case _ =>
      if w.ledger.Some? && step.session in w.requests {
        ServeKeeps(w, step.session, step);
      }
  }

  lemma GoesNowhere(g: G.World)
    ensures Goes(g, g)
  {
  }

  lemma {:induction false} RunKeeps(w: World, steps: seq<Step>)
    requires Inv(w)
    ensures Inv(Run(w, steps))
    decreases |steps|
  {
    hide Inv, Next;
    if steps != [] {
      NextKeeps(w, steps[0]);
      RunKeeps(Next(w, steps[0]), steps[1..]);
    }
  }

  lemma InvAlways(u: Setup, steps: seq<Step>)
    ensures Inv(Run(Start(u), steps))
  {
    RunKeeps(Start(u), steps);
  }

  // ----- what every run guarantees -----

  /** Every settled receipt, in memory or on file, stands for a payment the gateway has settled on file for
    * the same authorization, with the same network, payer and transaction. */
  lemma SettledReceiptsBacked(u: Setup, steps: seq<Step>, fp: Auth)
    ensures var w := Run(Start(u), steps);
            var disk := G.Disk(w.gateway);
            && (fp in Replayed(w.file.lines).receipts && Replayed(w.file.lines).receipts[fp].state.Settled? ==>
                  PaidFor(disk, Replayed(w.file.lines).receipts[fp]))
            && (w.ledger.Some? && fp in w.ledger.value.ix.receipts && w.ledger.value.ix.receipts[fp].state.Settled? ==>
                  PaidFor(disk, w.ledger.value.ix.receipts[fp]))
  {
    hide G.Disk, G.Inv, Replayed, Admitted, Consistent, PaidFor;
    InvAlways(u, steps);
    var w := Run(Start(u), steps);
    BackedIn(Replayed(w.file.lines), G.Disk(w.gateway), w.now, fp);
    if w.ledger.Some? {
      BackedIn(w.ledger.value.ix, G.Disk(w.gateway), w.now, fp);
    }
  }

  /** Gateway step s tells that the payment receipt r stands for happened: the chain's own answer to the call that
    * hands r's authorization over, with r's network, payer and transaction, or an operator's recovery that found
    * r's transaction. */
  predicate ChainConfirms(g: G.World, s: G.Step, r: Receipt) {
    || (&& s.Submit? && G.At(g, s.id) && g.settlements[s.id].auth == r.fingerprint && g.settlements[s.id].at.Journaled?
        && s.outcome == Some(Response(true, r.transaction, r.network, r.payer)))
    || (s.Reconcile? && s.auth == r.fingerprint && s.found == Some(r.transaction))
  }

  lemma StepConfirms(w: World, step: Step, a: Auth, rec: J.Record)
    requires G.Inv(w.gateway) && GatewaySafety.Known(Next(w, step).gateway, a, rec)
    ensures || GatewaySafety.Known(w.gateway, a, rec)
            || (step.Chain? && GatewaySafety.Confirms(w.gateway, step.step, a, rec))
  {
    hide G.Inv, GatewaySafety.Known, G.Next, WriteReceipt, FileAfter, Judge, G.VerifyAnswer, Outcome, Acknowledges, Opened;
    match step
    case Chain(g) => GatewaySafety.StepConfirms(w.gateway, g, a, rec);
    case CallGateway(s, g, id) =>
      if Next(w, step).gateway != w.gateway {
        GatewaySafety.StepConfirms(w.gateway, G.Call(id, g, w.requests[s].terms, w.requests[s].payload), a, rec);
      }
    case _ =>
  }

  lemma {:induction false} RunConfirms(w: World, steps: seq<Step>, a: Auth, rec: J.Record)
    requires Inv(w) && GatewaySafety.Known(Run(w, steps).gateway, a, rec)
    ensures || GatewaySafety.Known(w.gateway, a, rec)
            || exists i :: 0 <= i < |steps| && steps[i].Chain?
                           && GatewaySafety.Confirms(Run(w, steps[..i]).gateway, steps[i].step, a, rec)
    decreases |steps|
  {
    hide LedgerOk, RequestsOk, G.Inv, Next, GatewaySafety.Known, GatewaySafety.Confirms;
    if steps != [] {
      var w1, rest := Next(w, steps[0]), steps[1..];
      NextKeeps(w, steps[0]);
      RunConfirms(w1, rest, a, rec);
      if GatewaySafety.Known(w1.gateway, a, rec) {
        StepConfirms(w, steps[0], a, rec);
        assert Run(w, steps[..0]) == w;
      } else {
        var i :| 0 <= i < |rest| && rest[i].Chain? && GatewaySafety.Confirms(Run(w1, rest[..i]).gateway, rest[i].step, a, rec);
        assert steps[..i + 1][0] == steps[0] && steps[..i + 1][1..] == rest[..i];
        assert Run(w, steps[..i + 1]) == Run(w1, rest[..i]) && steps[i + 1] == rest[i];
      }
    }
  }

  /** Every settled receipt's payment was confirmed by a chain: a step of the run told of it. */
  lemma SettledWasConfirmed(u: Setup, steps: seq<Step>, r: Receipt)
    requires var w := Run(Start(u), steps);
             && r.state.Settled?
             && (|| (r.fingerprint in Replayed(w.file.lines).receipts && Replayed(w.file.lines).receipts[r.fingerprint] == r)
                 || (w.ledger.Some? && r.fingerprint in w.ledger.value.ix.receipts
                     && w.ledger.value.ix.receipts[r.fingerprint] == r))
    ensures exists i :: 0 <= i < |steps| && steps[i].Chain?
                        && ChainConfirms(Run(Start(u), steps[..i]).gateway, steps[i].step, r)
  {
    hide Inv, G.Disk, Run, Replayed, GatewaySafety.Known, GatewaySafety.Confirms, ChainConfirms;
    SettledReceiptsBacked(u, steps, r.fingerprint);
    var g := Run(Start(u), steps).gateway;
    GatewaySafety.IsKnown(g, r.fingerprint);
    var rec := G.Disk(g)[r.fingerprint];
    InvAlways(u, []);
    NoSteps(Start(u));
    RunConfirms(Start(u), steps, r.fingerprint, rec);
    GatewaySafety.NothingKnown(u.records, r.fingerprint, rec);
    var i :| 0 <= i < |steps| && steps[i].Chain?
             && GatewaySafety.Confirms(Run(Start(u), steps[..i]).gateway, steps[i].step, r.fingerprint, rec);
    ConfirmsReceipt(Run(Start(u), steps[..i]).gateway, steps[i].step, r, rec);
  }

  lemma ConfirmsReceipt(g: G.World, s: G.Step, r: Receipt, rec: J.Record)
    requires GatewaySafety.Confirms(g, s, r.fingerprint, rec)
    requires rec.response == Some(Response(true, r.transaction, r.network, r.payer))
    ensures ChainConfirms(g, s, r)
  {
  }

  lemma NoSteps(w: World)
    ensures Run(w, []) == w
  {
  }

  lemma BackedIn(ix: Indexes, disk: map<Auth, J.Record>, now: nat, fp: Auth)
    requires IndexesOk(ix, disk, now)
    ensures fp in ix.receipts && ix.receipts[fp].state.Settled? ==>
              PaidFor(disk, ix.receipts[fp]) && ix.receipts[fp].transaction != "" && ix.receipts[fp].fingerprint == fp
  {
    hide Consistent, PaidFor;
    if fp in ix.receipts {
      assert ReceiptOk(ix, fp, disk, now);
      assert ix.receipts[fp].fingerprint == fp by { ReceiptNamed(ix, fp); }
    }
  }

  lemma ReceiptNamed(ix: Indexes, fp: Auth)
    requires Consistent(ix) && fp in ix.receipts
    ensures ix.receipts[fp].fingerprint == fp && ix.receipts[fp].session in ix.bySession
  {
  }

  /** Any two sessions admitted at the same time paid with different authorizations and different chain
    * transactions, each settled on the gateway's file. */
  lemma EligiblePaidApart(u: Setup, steps: seq<Step>, s: string, t: string)
    requires var w := Run(Start(u), steps); s != t && Eligible(w, s) && Eligible(w, t)
    ensures var w := Run(Start(u), steps);
            var a, b := w.ledger.value.ix.bySession[s], w.ledger.value.ix.bySession[t];
            && a.fingerprint != b.fingerprint
            && (a.network, a.transaction) != (b.network, b.transaction)
            && PaidFor(G.Disk(w.gateway), a) && PaidFor(G.Disk(w.gateway), b)
  {
    hide G.Disk, G.Inv, Consistent, PaidFor;
    InvAlways(u, steps);
    var w := Run(Start(u), steps);
    var ix := w.ledger.value.ix;
    LatestSession(ix);
    BackedIn(ix, G.Disk(w.gateway), w.now, ix.bySession[s].fingerprint);
    BackedIn(ix, G.Disk(w.gateway), w.now, ix.bySession[t].fingerprint);
    RedeemedOnce(w.file.lines, s, t);
  }

  /** All receipts of a session but its latest are settled and over. */
  lemma OnlyLatestOpen(u: Setup, steps: seq<Step>, fp: Auth)
    requires var w := Run(Start(u), steps); w.ledger.Some? && fp in w.ledger.value.ix.receipts
    ensures var w := Run(Start(u), steps);
            var ix := w.ledger.value.ix;
            var r := ix.receipts[fp];
            && r.session in ix.bySession
            && (ix.bySession[r.session] == r || (r.state.Settled? && r.expires <= w.now))
  {
    hide G.Disk, G.Inv, Replayed, Admitted, PaidFor;
    InvAlways(u, steps);
    var w := Run(Start(u), steps);
    var ix := w.ledger.value.ix;
    assert ReceiptOk(ix, fp, G.Disk(w.gateway), w.now);
  }

  /** A settled receipt is never written over: every step leaves it on file as it was. */
  lemma SettledStays(w: World, step: Step, fp: Auth)
    requires Inv(w) && fp in Replayed(w.file.lines).receipts && Replayed(w.file.lines).receipts[fp].state.Settled?
    ensures var after := Replayed(Next(w, step).file.lines);
            fp in after.receipts && after.receipts[fp] == Replayed(w.file.lines).receipts[fp]
  {
    hide G.Disk, G.Inv, LedgerOk, Replayed, Full, Admitted, Judge, G.VerifyAnswer, Accepts, Apply;
    if (step.Reserve? || step.Conclude?) && w.ledger.Some? && step.session in w.requests {
      var s := step.session;
      var q, l := w.requests[s], w.ledger.value;
      assert RequestOk(q, s, l.ix, w.gateway, w.now);
      if step.Reserve? && q.at.Verified? {
        WriteSparesSettled(w, Reservation(s, q.auth, q.terms, q.at.payer, step.policy), step.fate, fp);
      } else if step.Conclude? && q.at.Replied? {
        OpenReceiptOk(w, s);
        WriteSparesSettled(w, Outcome(q.at.receipt, q.terms, q.at.reply, w.now, w.pass), step.fate, fp);
      }
    }
  }

  lemma WriteSparesSettled(w: World, r: Receipt, fate: Fate, fp: Auth)
    requires Inv(w) && w.ledger.Some?
    requires var ix := w.ledger.value.ix;
             Clear(ix, r.session, r.fingerprint, w.now) || (exists x :: Open(ix, r.session, r.fingerprint, x))
    requires fp in Replayed(w.file.lines).receipts && Replayed(w.file.lines).receipts[fp].state.Settled?
    ensures var after := Replayed(FileAfter(w.ledger.value, w.file, r, fate).lines);
            fp in after.receipts && after.receipts[fp] == Replayed(w.file.lines).receipts[fp]
  {
    hide G.Disk, G.Inv, Replayed, Full, Admitted, ReceiptOk, RequestsOk;
    ReplayedSnoc(w.file.lines, r);
    if !Refuses(w.ledger.value, r) {
      NotSettledBefore(w.ledger.value.ix, r, w.now);
    }
  }

  lemma NotSettledBefore(ix: Indexes, r: Receipt, now: nat)
    requires Consistent(ix) && Accepts(ix, r)
    requires Clear(ix, r.session, r.fingerprint, now) || (exists x :: Open(ix, r.session, r.fingerprint, x))
    ensures r.fingerprint in ix.receipts ==> !ix.receipts[r.fingerprint].state.Settled?
  {
  }

  lemma {:induction false} SettledForever(w: World, steps: seq<Step>, fp: Auth)
    requires Inv(w) && fp in Replayed(w.file.lines).receipts && Replayed(w.file.lines).receipts[fp].state.Settled?
    ensures var after := Replayed(Run(w, steps).file.lines);
            fp in after.receipts && after.receipts[fp] == Replayed(w.file.lines).receipts[fp]
    decreases |steps|
  {
    hide Inv, Next, Replayed;
    if steps != [] {
      SettledStays(w, steps[0], fp);
      NextKeeps(w, steps[0]);
      SettledForever(Next(w, steps[0]), steps[1..], fp);
    }
  }

  /** The ledger's own validation would let a settled receipt go back to unknown; the service never asks it to. */
  lemma ValidationAloneRegresses()
    ensures exists lines: seq<Receipt>, r: Receipt ::
              Admitted(lines + [r]) && r.fingerprint in Replayed(lines).receipts
              && Replayed(lines).receipts[r.fingerprint].state.Settled? && r.state.Unknown?
  {
    var paid := Receipt("s", Auth("n", "x", "p"), Settled, "n", "payer", "tx", "policy", 60);
    var back := paid.(state := Unknown);
    ReplayedSnoc([], paid);
    ReplayedSnoc([paid], back);
    assert [] + [paid] == [paid];
    assert Admitted([paid] + [back]) && back.fingerprint in Replayed([paid]).receipts;
  }

  /** The service calls settle for a session only while none of the session's passes is running. */
  lemma NoCallWhilePaid(u: Setup, steps: seq<Step>, s: string, g: nat, id: nat, fp: Auth)
    requires var w := Run(Start(u), steps);
             && Next(w, CallGateway(s, g, id)) != w
             && fp in w.ledger.value.ix.receipts && w.ledger.value.ix.receipts[fp].session == s
    ensures var w := Run(Start(u), steps); !Live(w.ledger.value.ix.receipts[fp], w.now)
  {
    hide G.Disk, G.Inv, Replayed, Admitted, PaidFor, Run, G.Next;
    InvAlways(u, steps);
    var w := Run(Start(u), steps);
    var ix := w.ledger.value.ix;
    assert RequestOk(w.requests[s], s, ix, w.gateway, w.now);
    assert ReceiptOk(ix, fp, G.Disk(w.gateway), w.now);
  }

  /** However visitors' requests interleave, each authorization reaches its chain at most once, and only after
    * the gateway's file holds its record. */
  lemma SubmittedAtMostOnce(u: Setup, steps: seq<Step>, a: Auth)
    ensures var g := Run(Start(u), steps).gateway;
            GatewaySafety.Count(g.sent, a) <= 1 && (a in g.sent ==> a in G.Disk(g))
  {
    hide G.Disk, LedgerOk, RequestsOk, G.FileOk, G.SettlementsOk, Run;
    InvAlways(u, steps);
    GatewaySafety.CountDistinct(Run(Start(u), steps).gateway.sent, a);
  }

  lemma WriteCodec(w: World, r: Receipt, fate: Fate)
    requires w.ledger.Some?
    ensures WriteTo(w, r, fate).file.codec == w.file.codec && WriteTo(w, r, fate).max == w.max
  {
    hide WriteReceipt, Refuses;
  }

  lemma ServeCodec(w: World, s: string, step: Step)
    requires s in w.requests && w.ledger.Some?
    ensures Serve(w, s, step).file.codec == w.file.codec && Serve(w, s, step).max == w.max
  {
    hide WriteTo, Judge, G.VerifyAnswer, G.Next, Outcome, Acknowledges, Reservation, Prior, Live;
    var q := w.requests[s];
    match (step, q.at)
    case (Reserve(_, policy, fate), Verified(payer)) => WriteCodec(w, Reservation(s, q.auth, q.terms, payer, policy), fate);
    case (Conclude(_, fate), Replied(x, reply)) => WriteCodec(w, Outcome(x, q.terms, reply, w.now, w.pass), fate);
    case _ =>
  }

  lemma CodecNext(w: World, step: Step)
    ensures Next(w, step).file.codec == w.file.codec && Next(w, step).max == w.max
  {
    hide Serve, Opened, G.Next;
    match step
    case Tick(_) =>
    case Chain(_) =>
    case OpenService =>
    case CloseLedger =>
    case Exit =>
    case Begin(_, _, _) =>
    case GiveUp(_) =>
    case _ =>
      if w.ledger.Some? && step.session in w.requests {
        ServeCodec(w, step.session, step);
      }
  }

  lemma {:induction false} CodecStays(w: World, steps: seq<Step>)
    ensures Run(w, steps).file.codec == w.file.codec && Run(w, steps).max == w.max
    decreases |steps|
  {
    hide Next;
    if steps != [] {
      CodecNext(w, steps[0]);
      CodecStays(Next(w, steps[0]), steps[1..]);
    }
  }

  /** Startup refuses the bytes any run left exactly when the last line is incomplete or some receipt's line is
    * longer than the reader's limit; otherwise it rebuilds the indexes a healthy ledger had. */
  lemma RestartReads(u: Setup, steps: seq<Step>, bytes: string)
    requires Lawful(u.receipts) && Holds(bytes, Run(Start(u), steps).file)
    ensures var w := Run(Start(u), steps);
            var next := Reopened(u.receipts, bytes, u.max);
            && (next == None <==> w.file.torn || exists r :: r in w.file.lines && !Short(u.receipts, r, LINE_MAX))
            && (next.Some? && w.ledger.Some? && !w.ledger.value.bad ==> next.value.ix == w.ledger.value.ix)
            && Next(w.(ledger := None), OpenService).ledger == next
  {
    hide G.Inv, IndexesOk, RequestsOk, Admitted, Replayed, Run, Reopened, Short, Holds, Lawful;
    InvAlways(u, steps);
    CodecStays(Start(u), steps);
    ReopenedHolds(bytes, Run(Start(u), steps).file, u.max);
  }
}
