/** The gateway's operations as it runs them, each an uninterrupted run of the gateway's steps
  * (internal/gateway/server.go, reconcile.go). */
module GatewayServer {
  import opened Results
  import opened DurableLog
  import opened PaymentTypes
  import opened GatewayJournal
  import opened Gateway
  import opened GatewaySafety

  /** One chain's settlement mechanism; its answer is the chain's affair. */
  class Mechanism {
    var sent: seq<Auth>

    constructor ()
      ensures sent == []
    {
      sent := [];
    }

    /** Submitting is allowed only for an authorization whose record is on file. */
    method Submit(auth: Auth, ghost onFile: map<Auth, Record>)
      requires auth in onFile
      modifies this
      ensures sent == old(sent) + [auth]
    {
      sent := sent + [auth];
    }
  }

  /** What settling one authorization leaves behind and answers. */
  datatype Outcome = Outcome(journal: Journal, file: File<Record>, sent: seq<Auth>, answer: Option<Response>)

  /** The answers of the world to one settle call: the preflight's payer, the chain's response, and what the
    * operating system does with the two appends. */
  datatype Luck = Luck(preflight: Option<string>, response: Option<Response>, first: Io, second: Io)

  function Alone(j: Journal, f: File<Record>, sent: seq<Auth>): World {
    World(f, [Instance(j, true)], map[], map[], sent)
  }

  /** One settlement under way, at pc. */
  function Midway(j: Journal, f: File<Record>, sent: seq<Auth>, auth: Auth, terms: Terms, pc: Pc): World {
    World(f, [Instance(j, true)], if InTurn(pc) then map[(0, terms.network) := 0] else map[],
          map[0 := Settlement(0, auth, terms, pc)], sent)
  }

  function After(o: Outcome, auth: Auth, terms: Terms): World {
    Midway(o.journal, o.file, o.sent, auth, terms, Answered(o.answer))
  }

  function Pending(terms: Terms, payload: string, payer: string): Record {
    PendingRecord(Settlement(0, Fingerprint(terms, payload), terms, Queued), payer)
  }

  function Final(terms: Terms, payload: string, payer: string, res: Response): Record {
    FinalRecord(Settlement(0, Fingerprint(terms, payload), terms, Queued), payer, res)
  }

  function PayerOf(luck: Luck): string {
    if luck.preflight.Some? then luck.preflight.value else ""
  }

  function FirstFate(c: Codec<Record>, terms: Terms, payload: string, luck: Luck): Fate {
    LineFate(c, Pending(terms, payload, PayerOf(luck)), luck.first)
  }

  function SecondFate(c: Codec<Record>, terms: Terms, payload: string, luck: Luck): Fate {
    var res := Judged(terms.network, PayerOf(luck), luck.response);
    LineFate(c, Final(terms, payload, PayerOf(luck), res), luck.second)
  }

  function SettleSteps(c: Codec<Record>, terms: Terms, payload: string, luck: Luck): seq<Step> {
    [Call(0, 0, terms, payload)] + TurnSteps(c, terms, payload, luck)
  }

  function TurnSteps(c: Codec<Record>, terms: Terms, payload: string, luck: Luck): seq<Step> {
    [TakeTurn(0), Look(0), Preflight(0, luck.preflight), Reserve(0, FirstFate(c, terms, payload, luck)),
     Submit(0, luck.response), Finish(0, SecondFate(c, terms, payload, luck))]
  }

  function SettleAlone(c: Codec<Record>, j: Journal, f: File<Record>, sent: seq<Auth>, terms: Terms, payload: string,
                       luck: Luck): Outcome {
    var id := Fingerprint(terms, payload);
    if id in j.records then
      var rec := j.records[id];
      Outcome(j, f, sent,
              if rec.terms != terms then None
              else if rec.state.Settled? && rec.response.Some? then rec.response
              else Some(Failed(terms.network, rec.payer)))
    else if PayerOf(luck) == "" then Outcome(j, f, sent, Some(Failed(terms.network, "")))
    else
      var payer := PayerOf(luck);
      var r := Pending(terms, payload, payer);
      var fate := FirstFate(c, terms, payload, luck);
      var j1, f1 := WriteRecord(j, r, fate), FileAfter(j, f, r, fate);
      if !Acknowledges(j, r, fate) then Outcome(j1, f1, sent, None)
      else
        var res := Judged(terms.network, payer, luck.response);
        var r' := Final(terms, payload, payer, res);
        var fate' := SecondFate(c, terms, payload, luck);
        Outcome(WriteRecord(j1, r', fate'), FileAfter(j1, f1, r', fate'), sent + [id],
                if Acknowledges(j1, r', fate') then Some(res) else None)
  }

  lemma BeginMidway(j: Journal, f: File<Record>, sent: seq<Auth>, terms: Terms, payload: string)
    ensures var id := Fingerprint(terms, payload);
            Next(Next(Alone(j, f, sent), Call(0, 0, terms, payload)), TakeTurn(0))
            == Midway(j, f, sent, id, terms, Holding)
  {
    var w1 := Next(Alone(j, f, sent), Call(0, 0, terms, payload));
    assert w1 == Midway(j, f, sent, Fingerprint(terms, payload), terms, Queued);
  }

  lemma AnswerMidway(j: Journal, f: File<Record>, sent: seq<Auth>, id: Auth, terms: Terms, pc: Pc, answer: Option<Response>)
    requires InTurn(pc)
    ensures Answer(Midway(j, f, sent, id, terms, pc), 0, answer) == Midway(j, f, sent, id, terms, Answered(answer))
  {
    assert map[(0, terms.network) := 0] - {(0, terms.network)} == map[];
  }

  lemma WriteMidway(j: Journal, f: File<Record>, sent: seq<Auth>, id: Auth, terms: Terms, pc: Pc, r: Record, fate: Fate)
    ensures Write(Midway(j, f, sent, id, terms, pc), 0, r, fate)
            == Midway(WriteRecord(j, r, fate), FileAfter(j, f, r, fate), sent, id, terms, pc)
  {
    hide WriteRecord, FileAfter;
    assert [Instance(j, true)][0 := Instance(WriteRecord(j, r, fate), true)] == [Instance(WriteRecord(j, r, fate), true)];
  }

  lemma MoveMidway(j: Journal, f: File<Record>, sent: seq<Auth>, id: Auth, terms: Terms, pc: Pc, pc': Pc)
    requires InTurn(pc) && InTurn(pc')
    ensures Moved(Midway(j, f, sent, id, terms, pc), 0, pc') == Midway(j, f, sent, id, terms, pc')
  {
    assert map[0 := Settlement(0, id, terms, pc)][0 := Settlement(0, id, terms, pc')]
        == map[0 := Settlement(0, id, terms, pc')];
  }

  /** An answered settlement takes no further step. */
  lemma AnsweredStays(w: World, s: Step)
    requires At(w, 0) && w.settlements[0].at.Answered? && (s.Preflight? || s.Reserve? || s.Submit? || s.Finish?)
    requires s.id == 0
    ensures Next(w, s) == w
  {
  }

  function TwoMore(w: World, c: Codec<Record>, terms: Terms, payload: string, luck: Luck): World {
    Next(Next(w, Submit(0, luck.response)), Finish(0, SecondFate(c, terms, payload, luck)))
  }

  function FourMore(w: World, c: Codec<Record>, terms: Terms, payload: string, luck: Luck): World {
    TwoMore(Next(Next(w, Preflight(0, luck.preflight)), Reserve(0, FirstFate(c, terms, payload, luck))),
            c, terms, payload, luck)
  }

  lemma AnsweredRuns(w: World, c: Codec<Record>, terms: Terms, payload: string, luck: Luck)
    requires At(w, 0) && w.settlements[0].at.Answered?
    ensures TwoMore(w, c, terms, payload, luck) == w && FourMore(w, c, terms, payload, luck) == w
  {
    hide Next, FirstFate, SecondFate, At;
    AnsweredStays(w, Preflight(0, luck.preflight));
    AnsweredStays(w, Reserve(0, FirstFate(c, terms, payload, luck)));
    AnsweredStays(w, Submit(0, luck.response));
    AnsweredStays(w, Finish(0, SecondFate(c, terms, payload, luck)));
  }

  lemma JournaledRuns(c: Codec<Record>, j: Journal, f: File<Record>, sent: seq<Auth>, terms: Terms, payload: string,
                      luck: Luck)
    ensures var id, payer := Fingerprint(terms, payload), PayerOf(luck);
            var res := Judged(terms.network, payer, luck.response);
            var r', fate' := Final(terms, payload, payer, res), SecondFate(c, terms, payload, luck);
            TwoMore(Midway(j, f, sent, id, terms, Journaled(payer)), c, terms, payload, luck)
            == Midway(WriteRecord(j, r', fate'), FileAfter(j, f, r', fate'), sent + [id], id, terms,
                      Answered(if Acknowledges(j, r', fate') then Some(res) else None))
  {
    hide WriteRecord, FileAfter, LineFate, Write, Answer, Judged;
    var id, payer := Fingerprint(terms, payload), PayerOf(luck);
    var res := Judged(terms.network, payer, luck.response);
    var r', fate' := Final(terms, payload, payer, res), SecondFate(c, terms, payload, luck);
    var w6 := Next(Midway(j, f, sent, id, terms, Journaled(payer)), Submit(0, luck.response));
    assert w6 == Midway(j, f, sent + [id], id, terms, Submitted(payer, res));
    WriteMidway(j, f, sent + [id], id, terms, Submitted(payer, res), r', fate');
    AnswerMidway(WriteRecord(j, r', fate'), FileAfter(j, f, r', fate'), sent + [id], id, terms, Submitted(payer, res),
                 if Acknowledges(j, r', fate') then Some(res) else None);
  }

  lemma PreflightMidway(j: Journal, f: File<Record>, sent: seq<Auth>, id: Auth, terms: Terms, luck: Luck)
    ensures Next(Midway(j, f, sent, id, terms, Cleared), Preflight(0, luck.preflight))
            == Midway(j, f, sent, id, terms, if PayerOf(luck) == "" then Answered(Some(Failed(terms.network, "")))
                                             else Verified(PayerOf(luck)))
  {
    hide Answer, Moved;
    if PayerOf(luck) == "" {
      AnswerMidway(j, f, sent, id, terms, Cleared, Some(Failed(terms.network, "")));
    } else {
      MoveMidway(j, f, sent, id, terms, Cleared, Verified(PayerOf(luck)));
    }
  }

  lemma ReserveMidway(j: Journal, f: File<Record>, sent: seq<Auth>, terms: Terms, payload: string, payer: string, fate: Fate)
    ensures var id, r := Fingerprint(terms, payload), Pending(terms, payload, payer);
            Next(Midway(j, f, sent, id, terms, Verified(payer)), Reserve(0, fate))
            == Midway(WriteRecord(j, r, fate), FileAfter(j, f, r, fate), sent, id, terms,
                      if Acknowledges(j, r, fate) then Journaled(payer) else Answered(None))
  {
    hide WriteRecord, FileAfter, Write, Answer, Moved;
    var id, r := Fingerprint(terms, payload), Pending(terms, payload, payer);
    var j1, f1 := WriteRecord(j, r, fate), FileAfter(j, f, r, fate);
    WriteMidway(j, f, sent, id, terms, Verified(payer), r, fate);
    MoveMidway(j1, f1, sent, id, terms, Verified(payer), Journaled(payer));
    AnswerMidway(j1, f1, sent, id, terms, Verified(payer), None);
  }

  /** The four steps after the look, for an authorization not recorded yet. */
  lemma NewRuns(c: Codec<Record>, j: Journal, f: File<Record>, sent: seq<Auth>, terms: Terms, payload: string, luck: Luck)
    requires Fingerprint(terms, payload) !in j.records
    ensures var id := Fingerprint(terms, payload);
            FourMore(Midway(j, f, sent, id, terms, Cleared), c, terms, payload, luck)
            == After(SettleAlone(c, j, f, sent, terms, payload, luck), id, terms)
  {
    hide WriteRecord, FileAfter, FirstFate, SecondFate, Next, TwoMore, Judged, Pending, Final;
    var id, payer := Fingerprint(terms, payload), PayerOf(luck);
    PreflightMidway(j, f, sent, id, terms, luck);
    if payer == "" {
      AnsweredStays(After(SettleAlone(c, j, f, sent, terms, payload, luck), id, terms),
                    Reserve(0, FirstFate(c, terms, payload, luck)));
      AnsweredRuns(After(SettleAlone(c, j, f, sent, terms, payload, luck), id, terms), c, terms, payload, luck);
    } else {
      var r, fate := Pending(terms, payload, payer), FirstFate(c, terms, payload, luck);
      var j1, f1 := WriteRecord(j, r, fate), FileAfter(j, f, r, fate);
      ReserveMidway(j, f, sent, terms, payload, payer, fate);
      if Acknowledges(j, r, fate) {
        JournaledRuns(c, j1, f1, sent, terms, payload, luck);
      } else {
        AnsweredRuns(Midway(j1, f1, sent, id, terms, Answered(None)), c, terms, payload, luck);
      }
    }
  }

  lemma LookMidway(c: Codec<Record>, j: Journal, f: File<Record>, sent: seq<Auth>, terms: Terms, payload: string, luck: Luck)
    ensures var id := Fingerprint(terms, payload);
            Next(Midway(j, f, sent, id, terms, Holding), Look(0))
            == if id in j.records then After(SettleAlone(c, j, f, sent, terms, payload, luck), id, terms)
               else Midway(j, f, sent, id, terms, Cleared)
  {
    hide WriteRecord, FileAfter, FirstFate, SecondFate, Answer, Moved;
    var id := Fingerprint(terms, payload);
    AnswerMidway(j, f, sent, id, terms, Holding, SettleAlone(c, j, f, sent, terms, payload, luck).answer);
    MoveMidway(j, f, sent, id, terms, Holding, Cleared);
  }

  /** Settling alone is one run of the gateway's steps. */
  lemma SettleAloneRuns(c: Codec<Record>, j: Journal, f: File<Record>, sent: seq<Auth>, terms: Terms, payload: string,
                        luck: Luck)
    ensures Run(Alone(j, f, sent), SettleSteps(c, terms, payload, luck))
            == After(SettleAlone(c, j, f, sent, terms, payload, luck), Fingerprint(terms, payload), terms)
  {
    hide Next, FirstFate, SecondFate, Run, SettleAlone, FourMore;
    SevenSteps(Alone(j, f, sent), SettleSteps(c, terms, payload, luck));
    BeginMidway(j, f, sent, terms, payload);
    LookMidway(c, j, f, sent, terms, payload, luck);
    LastFour(Next(Midway(j, f, sent, Fingerprint(terms, payload), terms, Holding), Look(0)), c, terms, payload, luck);
    if Fingerprint(terms, payload) in j.records {
      AnsweredRuns(After(SettleAlone(c, j, f, sent, terms, payload, luck), Fingerprint(terms, payload), terms),
                   c, terms, payload, luck);
    } else {
      NewRuns(c, j, f, sent, terms, payload, luck);
    }
  }

  lemma LastFour(w: World, c: Codec<Record>, terms: Terms, payload: string, luck: Luck)
    ensures var s := SettleSteps(c, terms, payload, luck);
            Next(Next(Next(Next(w, s[3]), s[4]), s[5]), s[6]) == FourMore(w, c, terms, payload, luck)
  {
    hide Next, FirstFate, SecondFate;
  }

  lemma SevenSteps(w: World, s: seq<Step>)
    requires |s| == 7
    ensures Run(w, s) == Next(Next(Next(Next(Next(Next(Next(w, s[0]), s[1]), s[2]), s[3]), s[4]), s[5]), s[6])
  {
    hide Next;
    var w3 := Next(Next(Next(w, s[0]), s[1]), s[2]);
    assert s[1..][1..] == s[2..] && s[2..][1..] == s[3..] && s[3..] == [s[3], s[4], s[5], s[6]];
    assert Run(w, s) == Run(Next(w, s[0]), s[1..]) == Run(Next(Next(w, s[0]), s[1]), s[2..]) == Run(w3, s[3..]);
    ThreeSteps(Next(w3, s[3]), s[4], s[5], s[6]);
    assert s[3..][1..] == [s[4], s[5], s[6]];
  }

  class Server {
    const journal: JournalFile
    const mechanism: Mechanism

    constructor (journal: JournalFile, mechanism: Mechanism)
      ensures this.journal == journal && this.mechanism == mechanism
    {
      this.journal, this.mechanism := journal, mechanism;
    }

    method Verify(terms: Terms, payload: string, preflight: Option<string>) returns (payer: Option<string>)
      ensures payer == VerifyAnswer(journal.State(), Fingerprint(terms, payload), terms, preflight)
      ensures var id, records := Fingerprint(terms, payload), journal.records;
              && (SettledIn(records, id) || (id in records && records[id].terms != terms) ==> payer == None)
              && (id in records && !SettledIn(records, id) && records[id].terms == terms ==> payer == Some(records[id].payer))
              && (id !in records ==> payer == preflight)
    {
      var rec := journal.Get(Fingerprint(terms, payload));
      if rec.Some? {
        if rec.value.terms != terms || rec.value.state.Settled? {
          return None;
        }
        return Some(rec.value.payer);
      }
      return preflight;
    }

    method Settle(terms: Terms, payload: string, luck: Luck, ghost f: File<Record>)
      returns (answer: Option<Response>, ghost f': File<Record>)
      requires journal.Valid(f)
      modifies journal, journal.disk, mechanism
      ensures journal.Valid(f')
      ensures Outcome(journal.State(), f', mechanism.sent, answer)
              == SettleAlone(journal.codec, old(journal.State()), f, old(mechanism.sent), terms, payload, luck)
      ensures var id, records := Fingerprint(terms, payload), old(journal.records);
              id in records ==>
                && journal.State() == old(journal.State()) && mechanism.sent == old(mechanism.sent)
                && answer == (if records[id].terms != terms then None
                              else if records[id].state.Settled? && records[id].response.Some? then records[id].response
                              else Some(Response(false, "", terms.network, records[id].payer)))
      ensures Fingerprint(terms, payload) !in old(journal.records) && PayerOf(luck) == "" ==>
                && journal.State() == old(journal.State()) && mechanism.sent == old(mechanism.sent)
                && answer == Some(Response(false, "", terms.network, ""))
      ensures var id, payer := Fingerprint(terms, payload), PayerOf(luck);
              id !in old(journal.records) && payer != "" && !old(journal.bad) && luck.first.Durable? && luck.second.Durable? ==>
                && mechanism.sent == old(mechanism.sent) + [id] && id in journal.records
                && journal.records[id].payer == payer && journal.records[id].terms == terms
                && answer.Some? && journal.records[id].response == answer
                && (if Matches(terms.network, payer, luck.response)
                    then journal.records[id].state.Settled? && answer == luck.response
                    else journal.records[id].state.Unknown?
                         && answer == Some(NoSuccess(terms.network, payer, luck.response)))
    {
      hide Latest, GatewayJournal.Admitted, Holds;
      f' := f;
      var id := Fingerprint(terms, payload);
      var known := journal.Get(id);
      if known.Some? {
        var rec := known.value;
        if rec.terms != terms {
          return None, f;
        }
        if rec.state.Settled? && rec.response.Some? {
          return rec.response, f;
        }
        return Some(Failed(terms.network, rec.payer)), f;
      }
      if luck.preflight.None? || luck.preflight.value == "" {
        return Some(Failed(terms.network, "")), f;
      }
      var payer := luck.preflight.value;
      var rec := Record(id, terms, payer, PayState.Pending, None);
      ghost var j := journal.State();
      var written := journal.Write(rec, luck.first, f);
      f' := FileAfter(j, f, rec, FirstFate(journal.codec, terms, payload, luck));
      if !written {
        return None, f';
      }
      mechanism.Submit(id, journal.records);
      var res := Failed(terms.network, payer);
      if luck.response.Some? {
        res := luck.response.value;
        if res.success && (res.network != terms.network || res.payer != payer || res.transaction == "") {
          res := Failed(terms.network, payer);
        }
      }
      rec := rec.(state := PayState.Unknown);
      if res.success {
        rec := rec.(state := Settled);
      }
      rec := rec.(response := Some(res));
      ghost var j1 := journal.State();
      ghost var f1 := f';
      written := journal.Write(rec, luck.second, f1);
      f' := FileAfter(j1, f1, rec, SecondFate(journal.codec, terms, payload, luck));
      if !written {
        return None, f';
      }
      return Some(res), f';
    }

    /** Operator recovery in a process that has just opened the journal: record a settlement the chain confirms,
      * and never submit. */
    method Reconcile(id: Auth, found: Option<string>, io: Io, ghost f: File<Record>)
      returns (answer: Option<Response>, ghost f': File<Record>)
      requires journal.Valid(f) && Opened(f) == Some(journal.State())
      modifies journal, journal.disk
      ensures journal.Valid(f')
      ensures f' == Reconciled(NoGateway(f), id, found, ReconcileFate(journal.codec, old(journal.records), id, found, io)).file
      ensures id !in old(journal.records) ==> answer == None && journal.State() == old(journal.State())
      ensures SettledIn(old(journal.records), id) && old(journal.records)[id].response.Some? ==>
                answer == old(journal.records)[id].response && journal.State() == old(journal.State())
      ensures answer.Some? && id in old(journal.records) && !SettledIn(old(journal.records), id) ==>
                SettledIn(journal.records, id) && journal.records[id].response == answer
      ensures id in old(journal.records) && !SettledIn(old(journal.records), id) && found.Some? && io.Durable? ==>
                var rec := old(journal.records)[id];
                && answer == Some(Response(true, found.value, rec.terms.network, rec.payer))
                && journal.records == old(journal.records)[id := rec.(state := Settled, response := answer)]
    {
      hide Latest, GatewayJournal.Admitted, Holds;
      f' := f;
      var known := journal.Get(id);
      if known.None? {
        return None, f;
      }
      var rec := known.value;
      if rec.state.Settled? && rec.response.Some? {
        return rec.response, f;
      }
      if found.None? {
        return None, f;
      }
      LatestNamed(f.lines);
      var res := Response(true, found.value, rec.terms.network, rec.payer);
      rec := rec.(state := Settled, response := Some(res));
      ghost var j := journal.State();
      var written := journal.Write(rec, io, f);
      f' := FileAfter(j, f, rec, ReconcileFate(journal.codec, j.records, id, found, io));
      return if written then Some(res) else None, f';
    }
  }

  function NoGateway(f: File<Record>): World {
    World(f, [], map[], map[], [])
  }

  function ReconcileFate(c: Codec<Record>, records: map<Auth, Record>, id: Auth, found: Option<string>, io: Io): Fate {
    if id !in records || found.None? then Lost
    else
      var rec := records[id];
      var res := Response(true, found.value, rec.terms.network, rec.payer);
      LineFate(c, rec.(state := Settled, response := Some(res)), io)
  }
}
