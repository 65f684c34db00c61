/** The payment request as the service runs it, a run of the fast lane's steps (internal/fastlane/service.go). */
module PaymentService {
  import opened Results
  import opened DurableLog
  import opened PaymentTypes
  import opened ReceiptLedger
  import opened FastLane
  import J = GatewayJournal
  import G = Gateway
  import S = GatewayServer
  import GatewaySafety

  datatype Reply =
    | Paid(receipt: Receipt)
    | InProgress
    | Conflict
    | NotVerified
    | NotApproved
    | NotReserved
    | Unresolved
    | NotSaved

  /** The files behind the service, as the two logs mean them. */
  datatype Files = Files(receipts: File<Receipt>, records: File<J.Record>)

  /** The world as one service and its gateway see it when no request is running. */
  function Quiet(now: nat, pass: nat, l: Ledger, j: J.Journal, f: Files, sent: seq<Auth>): World {
    World(now, pass, l.max, S.Alone(j, f.records, sent), f.receipts, Some(l), map[])
  }

  /** ... and while one request is, not yet at the gateway. */
  function Busy(now: nat, pass: nat, l: Ledger, j: J.Journal, f: Files, sent: seq<Auth>, s: string, q: Request): World {
    Quiet(now, pass, l, j, f, sent).(requests := map[s := q])
  }

  /** screen is the policy service's approval, or None when it gives none. */
  function FrontSteps(s: string, terms: Terms, payload: string, preflight: Option<string>, screen: Option<string>,
                      fate: Fate): seq<Step> {
    [Begin(s, terms, payload), ReadPrior(s), Decide(s), Verify(s, 0, preflight), LastStep(s, screen, fate)]
  }

  function LastStep(s: string, screen: Option<string>, fate: Fate): Step {
    if screen.Some? then Reserve(s, screen.value, fate) else GiveUp(s)
  }

  function ChainSteps(steps: seq<G.Step>): (r: seq<Step>)
    ensures |r| == |steps| && forall i :: 0 <= i < |steps| ==> r[i] == Chain(steps[i])
  {
    seq(|steps|, i requires 0 <= i < |steps| => Chain(steps[i]))
  }

  function BackSteps(c: Codec<J.Record>, s: string, terms: Terms, payload: string, luck: S.Luck, timedOut: bool,
                     elapsed: nat, fate: Fate): seq<Step> {
    [CallGateway(s, 0, 0)] + ChainSteps(S.TurnSteps(c, terms, payload, luck))
    + [if timedOut then TimeOut(s) else TakeReply(s), Tick(elapsed), Conclude(s, fate)]
  }

  /** What the request leaves before it turns to the gateway, and the receipt it then wants settled. */
  function Prepared(l: Ledger, j: J.Journal, f: File<Receipt>, s: string, terms: Terms, payload: string, now: nat,
                    preflight: Option<string>, screen: Option<string>, fate: Fate): (Ledger, File<Receipt>, Option<Receipt>) {
    var auth, prior := Fingerprint(terms, payload), Prior(l.ix, s);
    if prior.Some? && Live(prior.value, now) then (l, f, None)
    else
      match Judge(l.ix, s, auth, prior)
      case Leave => (l, f, None)
      case Retry(p) => (l, f, if screen.Some? then Some(p) else None)
      case PayAnew =>
        match G.VerifyAnswer(j, auth, terms, preflight)
        case None => (l, f, None)
        case Some(payer) =>
          if payer == "" || screen.None? then (l, f, None)
          else
            var x := Reservation(s, auth, terms, payer, screen.value);
            (WriteReceipt(l, x, fate), FileAfter(l, f, x, fate), if Acknowledges(l, x, fate) then Some(x) else None)
  }

  // ----- where a session stands -----

  /** Its pass is running. */
  predicate PassRunning(ix: Indexes, s: string, now: nat) {
    s in ix.bySession && ix.bySession[s].state.Settled? && now < ix.bySession[s].expires
  }

  /** The authorization is another session's. */
  predicate Elsewhere(ix: Indexes, s: string, a: Auth) {
    a in ix.receipts && ix.receipts[a].session != s
  }

  /** This very authorization has paid for the session before. */
  predicate PaidBefore(ix: Indexes, s: string, a: Auth) {
    || (a in ix.receipts && ix.receipts[a].session == s && ix.receipts[a].state.Settled?)
    || (s in ix.bySession && ix.bySession[s].fingerprint == a && ix.bySession[s].state.Settled?)
  }

  /** The session's latest payment is unresolved, and is this authorization's or not. */
  predicate Unsettled(ix: Indexes, s: string, a: Auth, same: bool) {
    s in ix.bySession && !ix.bySession[s].state.Settled? && (ix.bySession[s].fingerprint == a <==> same)
  }

  /** The service must refuse: the authorization is another session's, or another payment is still unresolved. */
  predicate Conflicts(ix: Indexes, s: string, a: Auth, now: nat) {
    !PassRunning(ix, s, now) && (Elsewhere(ix, s, a) || (!PaidBefore(ix, s, a) && Unsettled(ix, s, a, false)))
  }

  /** The identical unresolved payment is to be tried again. */
  predicate Retries(ix: Indexes, s: string, a: Auth) {
    !Elsewhere(ix, s, a) && !PaidBefore(ix, s, a) && Unsettled(ix, s, a, true)
  }

  /** Nothing stands in the way of a first payment. */
  predicate Free(ix: Indexes, s: string, a: Auth, now: nat) {
    && !PassRunning(ix, s, now) && !Elsewhere(ix, s, a) && !PaidBefore(ix, s, a)
    && (s in ix.bySession ==> ix.bySession[s].state.Settled?)
  }

  /** Whom the gateway's verify operation names, or no one. */
  function VerifiedPayer(records: map<Auth, J.Record>, a: Auth, terms: Terms, preflight: Option<string>): string {
    if a !in records then (if preflight.Some? then preflight.value else "")
    else if J.SettledIn(records, a) || records[a].terms != terms then ""
    else records[a].payer
  }

  lemma StandsSomewhere(ix: Indexes, s: string, a: Auth, now: nat)
    ensures Conflicts(ix, s, a, now) ==> !Retries(ix, s, a) && !Free(ix, s, a, now)
    ensures PassRunning(ix, s, now) ==> !Retries(ix, s, a) && !Free(ix, s, a, now)
    ensures PaidBefore(ix, s, a) ==> !Retries(ix, s, a) && !Free(ix, s, a, now)
    ensures Retries(ix, s, a) ==> !Free(ix, s, a, now)
    ensures !Retries(ix, s, a) && !Free(ix, s, a, now) ==>
              || Conflicts(ix, s, a, now) || PassRunning(ix, s, now)
              || (!Elsewhere(ix, s, a) && PaidBefore(ix, s, a))
  {
  }

  lemma PreparedEnds(l: Ledger, j: J.Journal, f: File<Receipt>, s: string, terms: Terms, payload: string, now: nat,
                     preflight: Option<string>, screen: Option<string>, fate: Fate)
    requires !Free(l.ix, s, Fingerprint(terms, payload), now) && !Retries(l.ix, s, Fingerprint(terms, payload))
    ensures Prepared(l, j, f, s, terms, payload, now, preflight, screen, fate) == (l, f, None)
  {
  }

  lemma PreparedRetry(l: Ledger, j: J.Journal, f: File<Receipt>, s: string, terms: Terms, payload: string, now: nat,
                      preflight: Option<string>, screen: Option<string>, fate: Fate)
    requires Retries(l.ix, s, Fingerprint(terms, payload))
    ensures Prepared(l, j, f, s, terms, payload, now, preflight, screen, fate)
            == (l, f, if screen.Some? then Some(l.ix.bySession[s]) else None)
  {
  }

  lemma PreparedFirst(l: Ledger, j: J.Journal, f: File<Receipt>, s: string, terms: Terms, payload: string, now: nat,
                      preflight: Option<string>, screen: Option<string>, fate: Fate)
    requires Free(l.ix, s, Fingerprint(terms, payload), now)
    ensures var a := Fingerprint(terms, payload);
            var payer := VerifiedPayer(j.records, a, terms, preflight);
            Prepared(l, j, f, s, terms, payload, now, preflight, screen, fate)
            == if payer == "" || screen.None? then (l, f, None)
               else
                 var x := Receipt(s, a, Pending, terms.network, payer, "", screen.value, 0);
                 (WriteReceipt(l, x, fate), FileAfter(l, f, x, fate), if Acknowledges(l, x, fate) then Some(x) else None)
  {
    hide WriteReceipt, FileAfter, Acknowledges;
  }

  lemma SyncedWhenDurable(c: Codec<Receipt>, x: Receipt, io: Io)
    ensures LineFate(c, x, io).Synced? <==> io.Durable?
  {
  }

  // ----- the steps one by one -----

  lemma PutBusy(now: nat, pass: nat, l: Ledger, j: J.Journal, f: Files, sent: seq<Auth>, s: string, q: Request, pc: Pc)
    ensures Put(Busy(now, pass, l, j, f, sent, s, q), s, pc) == Busy(now, pass, l, j, f, sent, s, q.(at := pc))
    ensures Done(Busy(now, pass, l, j, f, sent, s, q), s) == Quiet(now, pass, l, j, f, sent)
  {
    assert map[s := q][s := q.(at := pc)] == map[s := q.(at := pc)];
    assert map[s := q] - {s} == map[];
  }

  lemma WriteBusy(now: nat, pass: nat, l: Ledger, j: J.Journal, f: Files, sent: seq<Auth>, s: string, q: Request,
                  r: Receipt, fate: Fate)
    ensures WriteTo(Busy(now, pass, l, j, f, sent, s, q), r, fate)
            == Busy(now, pass, WriteReceipt(l, r, fate), j, f.(receipts := FileAfter(l, f.receipts, r, fate)), sent, s, q)
  {
    hide Accepts, Apply, Full;
  }

  lemma BeginRuns(now: nat, pass: nat, l: Ledger, j: J.Journal, f: Files, sent: seq<Auth>, s: string, terms: Terms,
                  payload: string)
    requires s != "" && terms.network != ""
    ensures Next(Quiet(now, pass, l, j, f, sent), Begin(s, terms, payload))
            == Busy(now, pass, l, j, f, sent, s, Request(Fingerprint(terms, payload), terms, payload, Arrived))
  {
  }

  lemma ReadRuns(now: nat, pass: nat, l: Ledger, j: J.Journal, f: Files, sent: seq<Auth>, s: string, q: Request)
    requires q.at.Arrived?
    ensures var prior := Prior(l.ix, s);
            Next(Busy(now, pass, l, j, f, sent, s, q), ReadPrior(s))
            == if prior.Some? && Live(prior.value, now) then Quiet(now, pass, l, j, f, sent)
               else Busy(now, pass, l, j, f, sent, s, q.(at := Looked(prior)))
  {
    hide Put, Done;
    PutBusy(now, pass, l, j, f, sent, s, q, Looked(Prior(l.ix, s)));
  }

  lemma DecideRuns(now: nat, pass: nat, l: Ledger, j: J.Journal, f: Files, sent: seq<Auth>, s: string, q: Request,
                   prior: Option<Receipt>)
    requires q.at == Looked(prior)
    ensures Next(Busy(now, pass, l, j, f, sent, s, q), Decide(s))
            == match Judge(l.ix, s, q.auth, prior)
               case Leave => Quiet(now, pass, l, j, f, sent)
               case PayAnew => Busy(now, pass, l, j, f, sent, s, q.(at := Fresh))
               case Retry(p) => Busy(now, pass, l, j, f, sent, s, q.(at := Ready(p)))
  {
    hide Put, Done, Judge;
    match Judge(l.ix, s, q.auth, prior)
    case Leave => PutBusy(now, pass, l, j, f, sent, s, q, Fresh);
    case PayAnew => PutBusy(now, pass, l, j, f, sent, s, q, Fresh);
    case Retry(p) => PutBusy(now, pass, l, j, f, sent, s, q, Ready(p));
  }

  lemma VerifyRuns(now: nat, pass: nat, l: Ledger, j: J.Journal, f: Files, sent: seq<Auth>, s: string, q: Request,
                   preflight: Option<string>)
    requires q.at.Fresh?
    ensures Next(Busy(now, pass, l, j, f, sent, s, q), Verify(s, 0, preflight))
            == match G.VerifyAnswer(j, q.auth, q.terms, preflight)
               case None => Quiet(now, pass, l, j, f, sent)
               case Some(payer) => if payer == "" then Quiet(now, pass, l, j, f, sent)
                                   else Busy(now, pass, l, j, f, sent, s, q.(at := Verified(payer)))
  {
    hide Put, Done, G.VerifyAnswer;
    var answer := G.VerifyAnswer(j, q.auth, q.terms, preflight);
    PutBusy(now, pass, l, j, f, sent, s, q, Verified(if answer.Some? then answer.value else ""));
  }

  lemma ReserveRuns(now: nat, pass: nat, l: Ledger, j: J.Journal, f: Files, sent: seq<Auth>, s: string, q: Request,
                    policy: string, fate: Fate)
    requires q.at.Verified?
    ensures var x := Reservation(s, q.auth, q.terms, q.at.payer, policy);
            var l', f' := WriteReceipt(l, x, fate), f.(receipts := FileAfter(l, f.receipts, x, fate));
            Next(Busy(now, pass, l, j, f, sent, s, q), Reserve(s, policy, fate))
            == if Acknowledges(l, x, fate) then Busy(now, pass, l', j, f', sent, s, q.(at := Ready(x)))
               else Quiet(now, pass, l', j, f', sent)
  {
    hide Put, Done, WriteTo, WriteReceipt, FileAfter, Acknowledges;
    var x := Reservation(s, q.auth, q.terms, q.at.payer, policy);
    WriteBusy(now, pass, l, j, f, sent, s, q, x, fate);
    PutBusy(now, pass, WriteReceipt(l, x, fate), j, f.(receipts := FileAfter(l, f.receipts, x, fate)), sent, s, q, Ready(x));
  }

  lemma IdleRuns(now: nat, pass: nat, l: Ledger, j: J.Journal, f: Files, sent: seq<Auth>, step: Step)
    requires step.Decide? || step.Verify? || step.Reserve? || step.GiveUp?
    ensures Next(Quiet(now, pass, l, j, f, sent), step) == Quiet(now, pass, l, j, f, sent)
  {
  }

  lemma GiveUpRuns(now: nat, pass: nat, l: Ledger, j: J.Journal, f: Files, sent: seq<Auth>, s: string, q: Request)
    requires q.at.Ready? || q.at.Verified?
    ensures Next(Busy(now, pass, l, j, f, sent, s, q), GiveUp(s)) == Quiet(now, pass, l, j, f, sent)
  {
    hide Put, Done;
    PutBusy(now, pass, l, j, f, sent, s, q, q.at);
  }

  lemma ReadyIdle(now: nat, pass: nat, l: Ledger, j: J.Journal, f: Files, sent: seq<Auth>, s: string, q: Request, step: Step)
    requires q.at.Ready? && (step.Verify? || step.Reserve?) && step.session == s
    ensures Next(Busy(now, pass, l, j, f, sent, s, q), step) == Busy(now, pass, l, j, f, sent, s, q)
  {
  }

  /** Preparing alone is one run of the machine's steps. */
  lemma PreparedRuns(now: nat, pass: nat, l: Ledger, j: J.Journal, f: Files, sent: seq<Auth>, s: string, terms: Terms,
                     payload: string, preflight: Option<string>, screen: Option<string>, fate: Fate)
    requires s != "" && terms.network != ""
    ensures var (l', file', ready) := Prepared(l, j, f.receipts, s, terms, payload, now, preflight, screen, fate);
            Run(Quiet(now, pass, l, j, f, sent), FrontSteps(s, terms, payload, preflight, screen, fate))
            == match ready
               case None => Quiet(now, pass, l', j, f.(receipts := file'), sent)
               case Some(x) => Busy(now, pass, l', j, f.(receipts := file'), sent, s,
                                    Request(Fingerprint(terms, payload), terms, payload, Ready(x)))
  {
    hide WriteReceipt, FileAfter, Judge, G.VerifyAnswer, Run, Next, Quiet, Busy, Acknowledges;
    FiveSteps(Quiet(now, pass, l, j, f, sent), FrontSteps(s, terms, payload, preflight, screen, fate));
    assert f.(receipts := f.receipts) == f;
    BeginRuns(now, pass, l, j, f, sent, s, terms, payload);
    var auth, prior := Fingerprint(terms, payload), Prior(l.ix, s);
    var q := Request(auth, terms, payload, Arrived);
    ReadRuns(now, pass, l, j, f, sent, s, q);
    IdleRuns(now, pass, l, j, f, sent, Decide(s));
    IdleRuns(now, pass, l, j, f, sent, Verify(s, 0, preflight));
    IdleRuns(now, pass, l, j, f, sent, LastStep(s, screen, fate));
    if !(prior.Some? && Live(prior.value, now)) {
      DecideRuns(now, pass, l, j, f, sent, s, q.(at := Looked(prior)), prior);
      match Judge(l.ix, s, auth, prior)
      case Leave =>
      case Retry(p) =>
        ReadyIdle(now, pass, l, j, f, sent, s, q.(at := Ready(p)), Verify(s, 0, preflight));
        if screen.Some? {
          ReadyIdle(now, pass, l, j, f, sent, s, q.(at := Ready(p)), LastStep(s, screen, fate));
        } else {
          GiveUpRuns(now, pass, l, j, f, sent, s, q.(at := Ready(p)));
        }
      case PayAnew =>
        VerifyRuns(now, pass, l, j, f, sent, s, q.(at := Fresh), preflight);
        match G.VerifyAnswer(j, auth, terms, preflight)
        case None =>
        case Some(payer) =>
          if payer != "" {
            if screen.Some? {
              ReserveRuns(now, pass, l, j, f, sent, s, q.(at := Verified(payer)), screen.value, fate);
            } else {
              GiveUpRuns(now, pass, l, j, f, sent, s, q.(at := Verified(payer)));
            }
          }
    }
  }

  lemma FiveSteps(w: World, s: seq<Step>)
    requires |s| == 5
    ensures Run(w, s) == Next(Next(Next(Next(Next(w, s[0]), s[1]), s[2]), s[3]), s[4])
  {
    hide Next;
    var w2 := Next(Next(w, s[0]), s[1]);
    assert s[1..][1..] == s[2..] && s[2..] == [s[2], s[3], s[4]];
    assert Run(w, s) == Run(Next(w, s[0]), s[1..]) == Run(w2, s[2..]);
    ThreeSteps(w2, s[2], s[3], s[4]);
  }

  lemma ThreeSteps(w: World, a: Step, b: Step, c: Step)
    ensures Run(w, [a, b, c]) == Next(Next(Next(w, a), b), c)
  {
    hide Next;
    assert [a, b, c][1..] == [b, c] && [b, c][1..] == [c] && [c][1..] == [];
    assert Run(Next(Next(w, a), b), [c]) == Run(Next(Next(Next(w, a), b), c), []);
    assert Run(Next(w, a), [b, c]) == Run(Next(Next(w, a), b), [c]);
  }

  lemma {:induction false} RunConcat(w: World, a: seq<Step>, b: seq<Step>)
    ensures Run(w, a + b) == Run(Run(w, a), b)
    decreases |a|
  {
    hide Next;
    if a == [] {
      assert a + b == b;
    } else {
      assert (a + b)[0] == a[0] && (a + b)[1..] == a[1..] + b;
      RunConcat(Next(w, a[0]), a[1..], b);
    }
  }

  /** Gateway steps leave the fast lane's own state alone. */
  lemma {:induction false} ChainRuns(w: World, steps: seq<G.Step>)
    ensures Run(w, ChainSteps(steps)) == w.(gateway := G.Run(w.gateway, steps))
    decreases |steps|
  {
    hide G.Next;
    if steps != [] {
      assert ChainSteps(steps)[1..] == ChainSteps(steps[1..]);
      ChainRuns(w.(gateway := G.Next(w.gateway, steps[0])), steps[1..]);
    }
  }

  /** What the reply says in the end: nothing, when the service stopped waiting for it. */
  function ReplyOf(answer: Option<Response>, timedOut: bool): Option<Response> {
    if timedOut then None else answer
  }

  lemma CallRuns(now: nat, pass: nat, l: Ledger, j: J.Journal, f: Files, sent: seq<Auth>, s: string, q: Request)
    requires q.at.Ready?
    ensures var w := Busy(now, pass, l, j, f, sent, s, q);
            Next(w, CallGateway(s, 0, 0))
            == Busy(now, pass, l, j, f, sent, s, q.(at := Waiting(q.at.receipt, 0))).(
                 gateway := G.Next(w.gateway, G.Call(0, 0, q.terms, q.payload)))
  {
    hide Put, Done, G.Next;
    PutBusy(now, pass, l, j, f, sent, s, q, Waiting(q.at.receipt, 0));
  }

  lemma ReplyRuns(w: World, s: string, q: Request, answer: Option<Response>, timedOut: bool)
    requires w.ledger.Some? && w.requests == map[s := q] && q.at.Waiting? && q.at.call in w.gateway.settlements
    requires w.gateway.settlements[q.at.call].at == G.Answered(answer)
    ensures Next(w, if timedOut then TimeOut(s) else TakeReply(s))
            == w.(requests := map[s := q.(at := Replied(q.at.receipt, ReplyOf(answer, timedOut)))])
  {
    assert map[s := q][s := q.(at := Replied(q.at.receipt, ReplyOf(answer, timedOut)))]
        == map[s := q.(at := Replied(q.at.receipt, ReplyOf(answer, timedOut)))];
  }

  lemma ConcludeRuns(w: World, s: string, q: Request, fate: Fate)
    requires w.ledger.Some? && w.requests == map[s := q] && q.at.Replied?
    ensures var x := Outcome(q.at.receipt, q.terms, q.at.reply, w.now, w.pass);
            Next(w, Conclude(s, fate)) == WriteTo(w, x, fate).(requests := map[])
  {
    hide WriteReceipt, FileAfter, Outcome;
    assert map[s := q] - {s} == map[];
  }

  /** Settling and concluding alone is one run of the machine's steps. */
  lemma ConcludedRuns(c: Codec<J.Record>, now: nat, pass: nat, l: Ledger, j: J.Journal, f: Files, sent: seq<Auth>,
                      s: string, terms: Terms, payload: string, x: Receipt, luck: S.Luck, timedOut: bool, elapsed: nat,
                      fate: Fate)
    ensures var auth := Fingerprint(terms, payload);
            var o := S.SettleAlone(c, j, f.records, sent, terms, payload, luck);
            var r := Outcome(x, terms, ReplyOf(o.answer, timedOut), now + elapsed, pass);
            Run(Busy(now, pass, l, j, f, sent, s, Request(auth, terms, payload, Ready(x))),
                BackSteps(c, s, terms, payload, luck, timedOut, elapsed, fate))
            == World(now + elapsed, pass, l.max, S.After(o, auth, terms), FileAfter(l, f.receipts, r, fate),
                     Some(WriteReceipt(l, r, fate)), map[])
  {
    hide WriteReceipt, FileAfter, Outcome, Run, G.Run, Next, G.Next, S.SettleAlone, S.TurnSteps, ChainSteps;
    var auth := Fingerprint(terms, payload);
    var q := Request(auth, terms, payload, Ready(x));
    var w0 := Busy(now, pass, l, j, f, sent, s, q);
    var turns := S.TurnSteps(c, terms, payload, luck);
    var tail := [if timedOut then TimeOut(s) else TakeReply(s), Tick(elapsed), Conclude(s, fate)];
    var o := S.SettleAlone(c, j, f.records, sent, terms, payload, luck);
    RunConcat(w0, [CallGateway(s, 0, 0)] + ChainSteps(turns), tail);
    RunConcat(w0, [CallGateway(s, 0, 0)], ChainSteps(turns));
    OneStep(w0, CallGateway(s, 0, 0));
    CallRuns(now, pass, l, j, f, sent, s, q);
    var w1 := Next(w0, CallGateway(s, 0, 0));
    ChainRuns(w1, turns);
    FirstTurns(w0.gateway, c, terms, payload, luck);
    S.SettleAloneRuns(c, j, f.records, sent, terms, payload, luck);
    var w2 := w1.(gateway := S.After(o, auth, terms));
    TailRuns(w2, s, q.(at := Waiting(x, 0)), o.answer, timedOut, elapsed, fate);
  }

  lemma OneStep(w: World, s: Step)
    ensures Run(w, [s]) == Next(w, s)
  {
    hide Next;
    assert [s][1..] == [];
  }

  lemma FirstTurns(g: G.World, c: Codec<J.Record>, terms: Terms, payload: string, luck: S.Luck)
    ensures G.Run(G.Next(g, G.Call(0, 0, terms, payload)), S.TurnSteps(c, terms, payload, luck))
            == G.Run(g, S.SettleSteps(c, terms, payload, luck))
  {
    hide G.Next, S.TurnSteps;
    var steps := S.SettleSteps(c, terms, payload, luck);
    assert steps[0] == G.Call(0, 0, terms, payload) && steps[1..] == S.TurnSteps(c, terms, payload, luck);
  }

  lemma TailRuns(w: World, s: string, q: Request, answer: Option<Response>, timedOut: bool, elapsed: nat, fate: Fate)
    requires w.ledger.Some? && w.requests == map[s := q] && q.at.Waiting? && q.at.call in w.gateway.settlements
    requires w.gateway.settlements[q.at.call].at == G.Answered(answer)
    ensures var r := Outcome(q.at.receipt, q.terms, ReplyOf(answer, timedOut), w.now + elapsed, w.pass);
            Run(w, [if timedOut then TimeOut(s) else TakeReply(s), Tick(elapsed), Conclude(s, fate)])
            == WriteTo(w, r, fate).(now := w.now + elapsed, requests := map[])
  {
    hide WriteReceipt, FileAfter, Outcome, Run, Serve;
    ThreeSteps(w, if timedOut then TimeOut(s) else TakeReply(s), Tick(elapsed), Conclude(s, fate));
    ReplyRuns(w, s, q, answer, timedOut);
    var w1 := w.(requests := map[s := q.(at := Replied(q.at.receipt, ReplyOf(answer, timedOut)))]);
    ConcludeRuns(w1.(now := w.now + elapsed), s, w1.requests[s], fate);
  }

  /** The receipt of an open payment that the gateway has settled by now. */
  function SettledNow(ix: Indexes, records: map<Auth, J.Record>, s: string, a: Auth, end: nat): Receipt
    requires s in ix.bySession && a in records && records[a].response.Some?
  {
    ix.bySession[s].(state := Settled, transaction := records[a].response.value.transaction, expires := end)
  }

  /** The session's open payment has been settled for its payer under the same terms, with a transaction that the
    * ledger can still take. */
  predicate RetryDue(ix: Indexes, records: map<Auth, J.Record>, s: string, a: Auth, terms: Terms, end: nat) {
    && Retries(ix, s, a) && ix.bySession[s].session == s && a in ix.byFingerprint
    && J.SettledIn(records, a) && records[a].terms == terms
    && GatewaySafety.Matches(terms.network, ix.bySession[s].payer, records[a].response)
    && Accepts(ix, SettledNow(ix, records, s, a, end))
  }

  /** The reply and the ledger afterwards show that receipt. */
  predicate RetryPaid(ix: Indexes, records: map<Auth, J.Record>, s: string, a: Auth, end: nat, reply: Reply, after: Indexes) {
    && s in ix.bySession && a in records && records[a].response.Some?
    && reply == Paid(SettledNow(ix, records, s, a, end))
    && after.bySession == ix.bySession[s := SettledNow(ix, records, s, a, end)]
  }

  lemma RetryIsPaid(c: Codec<J.Record>, l: Ledger, j: J.Journal, f: File<J.Record>, sent: seq<Auth>, s: string,
                    terms: Terms, payload: string, luck: S.Luck, now: nat, pass: nat, fate: Fate)
    requires RetryDue(l.ix, j.records, s, Fingerprint(terms, payload), terms, now + pass) && !l.bad && fate.Synced?
    ensures var a := Fingerprint(terms, payload);
            var o := S.SettleAlone(c, j, f, sent, terms, payload, luck);
            var r := SettledNow(l.ix, j.records, s, a, now + pass);
            && o.answer == j.records[a].response && o.sent == sent
            && GatewaySafety.Matches(terms.network, l.ix.bySession[s].payer, o.answer)
            && r == l.ix.bySession[s].(state := Settled, transaction := o.answer.value.transaction, expires := now + pass)
            && Acknowledges(l, r, fate)
            && WriteReceipt(l, r, fate).ix.bySession == l.ix.bySession[s := r]
  {
    hide Accepts;
  }

  lemma DueRetries(ix: Indexes, records: map<Auth, J.Record>, s: string, a: Auth, terms: Terms, end: nat)
    requires RetryDue(ix, records, s, a, terms, end)
    ensures Retries(ix, s, a) && s in ix.bySession && ix.bySession[s].session == s
  {
  }

  lemma RetryPrepared(l: Ledger, j: J.Journal, f: File<Receipt>, s: string, terms: Terms, payload: string, now: nat,
                      preflight: Option<string>, screen: Option<string>, fate: Fate)
    ensures Retries(l.ix, s, Fingerprint(terms, payload)) ==>
              var p := Prepared(l, j, f, s, terms, payload, now, preflight, screen, fate); p.0 == l && p.1 == f
    ensures forall records, end :: RetryDue(l.ix, records, s, Fingerprint(terms, payload), terms, end) ==>
              Retries(l.ix, s, Fingerprint(terms, payload)) && s in l.ix.bySession && l.ix.bySession[s].session == s
  {
    hide Prepared;
    if Retries(l.ix, s, Fingerprint(terms, payload)) {
      PreparedRetry(l, j, f, s, terms, payload, now, preflight, screen, fate);
    }
  }

  /** ready is the open receipt whose retry is due. */
  predicate DueNow(l: Ledger, records: map<Auth, J.Record>, ready: Receipt, a: Auth, terms: Terms, end: nat) {
    && !l.bad && RetryDue(l.ix, records, ready.session, a, terms, end) && l.ix.bySession[ready.session] == ready
  }

  lemma DueIsPaid(c: Codec<J.Record>, l: Ledger, j: J.Journal, f: File<J.Record>, sent: seq<Auth>, ready: Receipt,
                  terms: Terms, payload: string, luck: S.Luck, now: nat, pass: nat, fate: Fate, reply: Reply)
    requires DueNow(l, j.records, ready, Fingerprint(terms, payload), terms, now + pass) && fate.Synced?
    requires var o := S.SettleAlone(c, j, f, sent, terms, payload, luck);
             var r := Outcome(ready, terms, o.answer, now, pass);
             reply == (if r.state.Unknown? then Unresolved else if Acknowledges(l, r, fate) then Paid(r) else NotSaved)
    ensures var a := Fingerprint(terms, payload);
            var o := S.SettleAlone(c, j, f, sent, terms, payload, luck);
            var r := Outcome(ready, terms, o.answer, now, pass);
            && o.sent == sent
            && RetryPaid(l.ix, j.records, ready.session, a, now + pass, reply, WriteReceipt(l, r, fate).ix)
  {
    hide Accepts, S.SettleAlone, WriteReceipt, Acknowledges, Retries;
    DueRetries(l.ix, j.records, ready.session, Fingerprint(terms, payload), terms, now + pass);
    RetryIsPaid(c, l, j, f, sent, ready.session, terms, payload, luck, now, pass, fate);
  }

  // ----- the service -----

  class Service {
    const ledger: LedgerFile
    const server: S.Server
    const pass: nat
    var now: nat
    var active: set<string>

    constructor (ledger: LedgerFile, server: S.Server, pass: nat, now: nat)
      ensures this.ledger == ledger && this.server == server && this.pass == pass && this.now == now && active == {}
    {
      this.ledger, this.server, this.pass, this.now, this.active := ledger, server, pass, now, {};
    }

    ghost function Parts(): set<object>
    {
      {ledger, ledger.disk, server.journal, server.journal.disk, server.mechanism}
    }

    ghost predicate Valid(f: Files)
      reads this, Parts()
    {
      && ledger.Valid(f.receipts) && server.journal.Valid(f.records)
      && ledger.disk != server.journal.disk
    }

    ghost function Ledger(): ReceiptLedger.Ledger
      reads ledger
    {
      ledger.State()
    }

    ghost function Journal(): J.Journal
      reads server.journal
    {
      server.journal.State()
    }

    /** What the receipts say about an authorization: a reply at once, the open receipt to retry, or a first payment. */
    method Look(s: string, fp: Auth) returns (reply: Reply, retry: Option<Receipt>, first: bool)
      ensures var ix := Ledger().ix;
              && (first <==> Free(ix, s, fp, now))
              && (retry.Some? <==> Retries(ix, s, fp)) && (retry.Some? ==> retry == Some(ix.bySession[s]))
              && (reply == Conflict <==> Conflicts(ix, s, fp, now))
              && (PassRunning(ix, s, now) ==> reply == Paid(ix.bySession[s]))
              && (!PassRunning(ix, s, now) && !Elsewhere(ix, s, fp) && PaidBefore(ix, s, fp) ==>
                    reply == Paid(if fp in ix.receipts && ix.receipts[fp].state.Settled? then ix.receipts[fp]
                                  else ix.bySession[s]))
              && (first || retry.Some? ==> reply == Unresolved)
    {
      reply, retry, first := Unresolved, None, false;
      var prior := ledger.Get(s);
      if prior.Some? && prior.value.state.Settled? && now < prior.value.expires {
        return Paid(prior.value), None, false;
      }
      var used := ledger.GetByFingerprint(fp);
      if used.Some? {
        if used.value.session != s {
          return Conflict, None, false;
        }
        if used.value.state.Settled? {
          return Paid(used.value), None, false;
        }
      }
      if prior.Some? && prior.value.fingerprint == fp && prior.value.state.Settled? {
        return Paid(prior.value), None, false;
      }
      if prior.Some? && !prior.value.state.Settled? && prior.value.fingerprint != fp {
        return Conflict, None, false;
      }
      if prior.Some? && prior.value.fingerprint == fp {
        return Unresolved, prior, false;
      }
      first := true;
    }

    /** Decide on an authorization and reserve it before any settlement. A receipt in the reply was already
      * paid for; no receipt to settle means the request ends here. */
    method Prepare(s: string, terms: Terms, payload: string, preflight: Option<string>, screen: Option<string>, io: Io,
                   ghost f: Files)
      returns (reply: Reply, ready: Option<Receipt>, ghost f': Files, ghost fate: Fate)
      requires Valid(f)
      modifies ledger, ledger.disk
      ensures Valid(f') && f'.records == f.records
      ensures (Ledger(), f'.receipts, ready)
              == Prepared(old(Ledger()), Journal(), f.receipts, s, terms, payload, now, preflight, screen, fate)
      ensures fate.Synced? <==> io.Durable?
      ensures var ix, a := old(Ledger()).ix, Fingerprint(terms, payload);
              && (reply == Conflict <==> Conflicts(ix, s, a, now))
              && (PassRunning(ix, s, now) ==> reply == Paid(ix.bySession[s]) && ready == None)
              && (!PassRunning(ix, s, now) && !Elsewhere(ix, s, a) && PaidBefore(ix, s, a) ==>
                    && ready == None
                    && reply == Paid(if a in ix.receipts && ix.receipts[a].state.Settled? then ix.receipts[a] else ix.bySession[s]))
              && (Retries(ix, s, a) ==>
                    if screen.Some? then ready == Some(ix.bySession[s]) else ready == None && reply == NotApproved)
      ensures var ix, a := old(Ledger()).ix, Fingerprint(terms, payload);
              Free(ix, s, a, now) ==>
                var payer := VerifiedPayer(server.journal.records, a, terms, preflight);
                if payer == "" then reply == NotVerified && ready == None
                else if screen.None? then reply == NotApproved && ready == None
                else
                  var x := Receipt(s, a, Pending, terms.network, payer, "", screen.value, 0);
                  if Acknowledges(old(Ledger()), x, fate) then ready == Some(x) else reply == NotReserved && ready == None
      ensures if ready.Some? then reply == Unresolved else !reply.Unresolved? && !reply.InProgress? && !reply.NotSaved?
    {
      hide Replayed, ReceiptLedger.Admitted, J.Latest, J.Admitted, Apply, Accepts, Holds, Lawful, InStep, J.InStep, Prepared,
        PassRunning, Elsewhere, PaidBefore, Unsettled, Conflicts, Retries, Free, Full, LineFate;
      f', fate := f, if io.Durable? then Synced else Lost;
      var fp := Fingerprint(terms, payload);
      var first: bool;
      StandsSomewhere(Ledger().ix, s, fp, now);
      reply, ready, first := Look(s, fp);
      if !first && ready.None? {
        PreparedEnds(Ledger(), Journal(), f.receipts, s, terms, payload, now, preflight, screen, fate);
        return reply, None, f, fate;
      }
      if ready.Some? {
        PreparedRetry(Ledger(), Journal(), f.receipts, s, terms, payload, now, preflight, screen, fate);
        if screen.None? {
          return NotApproved, None, f, fate;
        }
        return Unresolved, ready, f, fate;
      }
      ghost var l := Ledger();
      var payer := server.Verify(terms, payload, preflight);
      if payer.None? || payer.value == "" {
        PreparedFirst(l, Journal(), f.receipts, s, terms, payload, now, preflight, screen, fate);
        return NotVerified, None, f, fate;
      }
      if screen.None? {
        PreparedFirst(l, Journal(), f.receipts, s, terms, payload, now, preflight, screen, fate);
        return NotApproved, None, f, fate;
      }
      var x := Receipt(s, fp, Pending, terms.network, payer.value, "", screen.value, 0);
      fate := LineFate(ledger.codec, x, io);
      SyncedWhenDurable(ledger.codec, x, io);
      PreparedFirst(l, Journal(), f.receipts, s, terms, payload, now, preflight, screen, fate);
      var ok := ledger.Write(x, io, f.receipts);
      f' := f.(receipts := FileAfter(l, f.receipts, x, fate));
      if !ok {
        return NotReserved, None, f', fate;
      }
      return Unresolved, Some(x), f', fate;
    }

    /** The receipt that the gateway's answer, or none in time, leads to. */
    method ReceiptFor(x: Receipt, terms: Terms, answer: Option<Response>, timedOut: bool) returns (r: Receipt)
      ensures r == Outcome(x, terms, ReplyOf(answer, timedOut), now, pass)
      ensures if GatewaySafety.Matches(terms.network, x.payer, ReplyOf(answer, timedOut))
              then r == x.(state := Settled, transaction := answer.value.transaction, expires := now + pass)
              else r == x.(state := Unknown)
    {
      if timedOut || answer.None? || !answer.value.success || answer.value.transaction == ""
         || answer.value.network != terms.network || answer.value.payer != x.payer {
        return x.(state := Unknown);
      }
      return x.(state := Settled, transaction := answer.value.transaction, expires := now + pass);
    }

    /** Settle the receipt and write down what came of it. */
    method Collect(terms: Terms, payload: string, ready: Receipt, luck: S.Luck, timedOut: bool, elapsed: nat, io: Io,
                   ghost f: Files)
      returns (reply: Reply, ghost f': Files, ghost fate: Fate)
      requires Valid(f)
      modifies this`now, ledger, ledger.disk, server.journal, server.journal.disk, server.mechanism
      ensures Valid(f')
      ensures var o := S.SettleAlone(server.journal.codec, old(Journal()), f.records, old(server.mechanism.sent), terms,
                                     payload, luck);
              var r := Outcome(ready, terms, ReplyOf(o.answer, timedOut), now, pass);
              && now == old(now) + elapsed
              && Journal() == o.journal && f'.records == o.file && server.mechanism.sent == o.sent
              && Ledger() == WriteReceipt(old(Ledger()), r, fate)
              && f'.receipts == FileAfter(old(Ledger()), f.receipts, r, fate)
              && reply == (if r.state.Unknown? then Unresolved
                           else if Acknowledges(old(Ledger()), r, fate) then Paid(r) else NotSaved)
              && (if GatewaySafety.Matches(terms.network, ready.payer, ReplyOf(o.answer, timedOut))
                  then r == ready.(state := Settled, transaction := o.answer.value.transaction, expires := now + pass)
                  else r == ready.(state := Unknown))
      ensures DueNow(old(Ledger()), old(server.journal.records), ready, Fingerprint(terms, payload), terms, now + pass)
              && !timedOut && io.Durable? ==>
                && RetryPaid(old(Ledger()).ix, old(server.journal.records), ready.session, Fingerprint(terms, payload),
                             now + pass, reply, Ledger().ix)
                && server.mechanism.sent == old(server.mechanism.sent)
      ensures fate.Synced? <==> io.Durable?
    {
      hide Replayed, ReceiptLedger.Admitted, J.Latest, J.Admitted, Apply, Accepts, Holds, Lawful, S.SettleAlone, InStep,
        J.InStep, LineFate, WriteReceipt, FileAfter, Acknowledges, S.PayerOf, DueNow, RetryPaid, Outcome, GatewaySafety.Matches;
      var answer: Option<Response>;
      ghost var records: File<J.Record>;
      answer, records := server.Settle(terms, payload, luck, f.records);
      now := now + elapsed;
      var x := ReceiptFor(ready, terms, answer, timedOut);
      SyncedWhenDurable(ledger.codec, x, io);
      fate := LineFate(ledger.codec, x, io);
      ghost var l := Ledger();
      var ok := ledger.Write(x, io, f.receipts);
      f' := Files(FileAfter(l, f.receipts, x, fate), records);
      reply := if x.state.Unknown? then Unresolved else if ok then Paid(x) else NotSaved;
      if DueNow(l, old(server.journal.records), ready, Fingerprint(terms, payload), terms, now + pass) && !timedOut && io.Durable? {
        DueIsPaid(server.journal.codec, l, old(Journal()), f.records, old(server.mechanism.sent), ready, terms, payload, luck,
                  now, pass, fate, reply);
      }
    }

    /** A request of a session that has no other running: what it leaves, tells and may rely on. */
    method Handle(s: string, terms: Terms, payload: string, preflight: Option<string>, screen: Option<string>,
                  luck: S.Luck, timedOut: bool, elapsed: nat, reserve: Io, conclude: Io, ghost f: Files)
      returns (reply: Reply, ghost f': Files, ghost steps: seq<Step>, ghost first: Fate, ghost second: Fate)
      requires Valid(f) && s != "" && terms.network != ""
      modifies this`now, Parts()
      ensures Valid(f')
      ensures (first.Synced? <==> reserve.Durable?) && (second.Synced? <==> conclude.Durable?)
      ensures || steps == FrontSteps(s, terms, payload, preflight, screen, first)
              || steps == FrontSteps(s, terms, payload, preflight, screen, first)
                          + BackSteps(server.journal.codec, s, terms, payload, luck, timedOut, elapsed, second)
      ensures Shows(Run(old(World(f)), steps), f')
      ensures reply != InProgress
      ensures reply == Conflict <==> Conflicts(old(Ledger()).ix, s, Fingerprint(terms, payload), old(now))
      ensures PassRunning(old(Ledger()).ix, s, old(now)) ==> reply == Paid(old(Ledger()).ix.bySession[s]) && f' == f
      ensures RetryDue(old(Ledger()).ix, old(server.journal.records), s, Fingerprint(terms, payload), terms, now + pass)
              && screen.Some? && !timedOut && conclude.Durable? && !old(Ledger()).bad ==>
                && RetryPaid(old(Ledger()).ix, old(server.journal.records), s, Fingerprint(terms, payload), now + pass, reply,
                             Ledger().ix)
                && server.mechanism.sent == old(server.mechanism.sent)
    {
      hide Run, Replayed, ReceiptLedger.Admitted, J.Latest, J.Admitted, Apply, Accepts, DurableLog.Holds, Lawful,
        S.SettleAlone, FrontSteps, BackSteps, Prepared, FastLane.Outcome, WriteReceipt, FileAfter, InStep, J.InStep,
        Conflicts, PassRunning, Retries, PaidBefore, Elsewhere, Free, Acknowledges, GatewaySafety.Matches, LineFate,
        SettledNow, RetryPaid, RetryDue;
      ghost var l, j, sent, before, a := Ledger(), Journal(), server.mechanism.sent, now, Fingerprint(terms, payload);
      second := if conclude.Durable? then Synced else Lost;
      StandsSomewhere(l.ix, s, a, before);
      var ready: Option<Receipt>;
      reply, ready, f', first := Prepare(s, terms, payload, preflight, screen, reserve, f);
      steps := FrontSteps(s, terms, payload, preflight, screen, first);
      PreparedRuns(before, pass, l, j, f, sent, s, terms, payload, preflight, screen, first);
      RetryPrepared(l, j, f.receipts, s, terms, payload, before, preflight, screen, first);
      if ready.None? {
        if PassRunning(l.ix, s, before) {
          PreparedEnds(l, j, f.receipts, s, terms, payload, before, preflight, screen, first);
        }
        return;
      }
      ghost var l1, f1 := Ledger(), f';
      assert f1 == f.(receipts := f1.receipts);
      reply, f', second := Collect(terms, payload, ready.value, luck, timedOut, elapsed, conclude, f1);
      ghost var back := BackSteps(server.journal.codec, s, terms, payload, luck, timedOut, elapsed, second);
      ConcludedRuns(server.journal.codec, before, pass, l1, j, f1, sent, s, terms, payload, ready.value, luck, timedOut,
                    elapsed, second);
      RunConcat(Quiet(before, pass, l, j, f, sent), steps, back);
      steps := steps + back;
    }

    /** One payment request, under the session's guard: a run of the machine's steps from the quiet world before
      * it to the quiet world after it. A running pass is served at once, a conflict is told exactly where there is
      * one, and the retry of a payment settled by now is paid. */
    method Payment(s: string, terms: Terms, payload: string, preflight: Option<string>, screen: Option<string>,
                   luck: S.Luck, timedOut: bool, elapsed: nat, reserve: Io, conclude: Io, ghost f: Files)
      returns (reply: Reply, ghost f': Files, ghost steps: seq<Step>)
      requires Valid(f) && s != "" && terms.network != ""
      modifies this, Parts()
      ensures Valid(f') && active == old(active)
      ensures s in old(active) ==> reply == InProgress && steps == [] && f' == f
      ensures s !in old(active) ==>
                exists first: Fate, second: Fate ::
                  && (first.Synced? <==> reserve.Durable?) && (second.Synced? <==> conclude.Durable?)
                  && (|| steps == FrontSteps(s, terms, payload, preflight, screen, first)
                      || steps == FrontSteps(s, terms, payload, preflight, screen, first)
                                  + BackSteps(server.journal.codec, s, terms, payload, luck, timedOut, elapsed, second))
      ensures Shows(Run(old(World(f)), steps), f')
      ensures reply == InProgress <==> s in old(active)
      ensures s !in old(active) ==>
                && (reply == Conflict <==> Conflicts(old(Ledger()).ix, s, Fingerprint(terms, payload), old(now)))
                && (PassRunning(old(Ledger()).ix, s, old(now)) ==> reply == Paid(old(Ledger()).ix.bySession[s]) && f' == f)
      ensures RetryDue(old(Ledger()).ix, old(server.journal.records), s, Fingerprint(terms, payload), terms, now + pass)
              && s !in old(active) && screen.Some? && !timedOut && conclude.Durable? && !old(Ledger()).bad ==>
                && RetryPaid(old(Ledger()).ix, old(server.journal.records), s, Fingerprint(terms, payload), now + pass, reply,
                             Ledger().ix)
                && server.mechanism.sent == old(server.mechanism.sent)
    {
      hide Run, Holds, Lawful, FrontSteps, BackSteps, InStep, J.InStep, Conflicts, PassRunning, RetryPaid, RetryDue;
      f', steps := f, [];
      NoSteps(World(f));
      if s in active {
        return InProgress, f, [];
      }
      active := active + {s};
      ghost var first: Fate, second: Fate;
      reply, f', steps, first, second := Handle(s, terms, payload, preflight, screen, luck, timedOut, elapsed, reserve,
                                                conclude, f);
      active := active - {s};
      assert (first.Synced? <==> reserve.Durable?) && (second.Synced? <==> conclude.Durable?);
    }

    ghost function World(f: Files): FastLane.World
      reads this, Parts()
    {
      Quiet(now, pass, Ledger(), Journal(), f, server.mechanism.sent)
    }

    /** w is what the service and its gateway hold, with no request running. */
    ghost predicate Shows(w: FastLane.World, f: Files)
      reads this, Parts()
    {
      && w.ledger == Some(Ledger()) && w.file == f.receipts && w.now == now && w.requests == map[]
      && w.gateway.gateways == [G.Instance(Journal(), true)] && w.gateway.file == f.records
      && w.gateway.sent == server.mechanism.sent
    }
  }
}
