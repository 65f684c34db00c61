/** What every run of the gateway guarantees: one submission per authorization, recorded first, and settled records
  * that last (internal/gateway/server.go, journal.go, reconcile.go). */
module GatewaySafety {
  import opened Results
  import D = DurableLog
  import opened GatewayJournal
  import opened PaymentTypes
  import opened Gateway

  // ----- what every run guarantees -----

  function Count(sent: seq<Auth>, a: Auth): nat {
    if sent == [] then 0 else Count(sent[..|sent| - 1], a) + (if sent[|sent| - 1] == a then 1 else 0)
  }

  lemma {:induction false} CountDistinct(sent: seq<Auth>, a: Auth)
    requires forall i, j :: 0 <= i < j < |sent| ==> sent[i] != sent[j]
    ensures Count(sent, a) <= 1 && (Count(sent, a) == 1 <==> a in sent)
  {
    if sent != [] {
      CountDistinct(sent[..|sent| - 1], a);
      assert sent == sent[..|sent| - 1] + [sent[|sent| - 1]];
    }
  }

  /** At most one submission per authorization, over every interleaving. */
  lemma SubmittedAtMostOnce(c: D.Codec<Record>, steps: seq<Step>, a: Auth)
    ensures Count(Run(Start(c), steps).sent, a) <= 1
  {
    InvAlways(c, steps);
    CountDistinct(Run(Start(c), steps).sent, a);
  }

  /** When a step submits an authorization, its pending record is already durable, and none was sent before. */
  lemma JournaledBeforeSubmitted(c: D.Codec<Record>, steps: seq<Step>, s: Step)
    ensures var w, w' := Run(Start(c), steps), Next(Run(Start(c), steps), s);
            w'.sent != w.sent ==>
              exists a: Auth :: w'.sent == w.sent + [a] && a in Disk(w) && a !in w.sent
  {
    hide Latest, Admitted, FileOk;
    var w, w' := Run(Start(c), steps), Next(Run(Start(c), steps), s);
    InvAlways(c, steps);
    if w'.sent != w.sent {
      SentBySubmit(w, s);
      AtHolds(w, s.id);
      assert IsJournaled(w, s.id);
      JournaledOnFile(w, s.id);
      assert w'.sent == w.sent + [w.settlements[s.id].auth];
    }
  }

  lemma SentBySubmit(w: World, s: Step)
    requires Next(w, s).sent != w.sent
    ensures s.Submit? && At(w, s.id) && w.settlements[s.id].at.Journaled?
  {
    hide FileAfter, WriteRecord, Opened;
  }

  /** A settled record is never changed again, whatever follows. */
  lemma SettledStays(w: World, s: Step, a: Auth)
    requires Inv(w) && SettledIn(Disk(w), a)
    ensures SettledIn(Disk(Next(w, s)), a) && Disk(Next(w, s))[a] == Disk(w)[a]
  {
    hide Latest, Admitted, FileAfter, WriteRecord, SettlementsOk, OnceOk;
    if s.Reconcile? {
      if Closed(w) {
        ReconcileGrows(w, s.auth, s.found, s.fate);
      }
    } else if s.Reserve? || s.Finish? {
      if At(w, s.id) {
        AdvanceGrows(w, s);
      }
    } else {
      FileOnlyByWrites(w, s);
    }
  }

  lemma FileOnlyByWrites(w: World, s: Step)
    requires !s.Reconcile? && !s.Reserve? && !s.Finish?
    ensures Next(w, s).file == w.file
  {
    hide FileAfter, WriteRecord, Opened;
  }

  lemma AdvanceGrows(w: World, s: Step)
    requires Inv(w) && (s.Reserve? || s.Finish?) && At(w, s.id)
    ensures forall a :: SettledIn(Disk(w), a) ==> a in Disk(Next(w, s)) && Disk(Next(w, s))[a] == Disk(w)[a]
  {
    hide Latest, Admitted, FileAfter, WriteRecord, FileOk, OnceOk;
    var id := s.id;
    AtHolds(w, id);
    var t := w.settlements[id];
    if s.Reserve? && t.at.Verified? {
      WriteKeepsFile(w, id, PendingRecord(t, t.at.payer), s.fate);
    } else if s.Finish? && t.at.Submitted? {
      WriteKeepsFile(w, id, FinalRecord(t, t.at.payer, t.at.result), s.fate);
    }
  }

  lemma {:induction false} SettledForever(w: World, steps: seq<Step>, a: Auth)
    requires Inv(w) && SettledIn(Disk(w), a)
    ensures SettledIn(Disk(Run(w, steps)), a) && Disk(Run(w, steps))[a] == Disk(w)[a]
    decreases |steps|
  {
    hide Inv, Next, Latest;
    if steps != [] {
      SettledStays(w, steps[0], a);
      NextKeeps(w, steps[0]);
      SettledForever(Next(w, steps[0]), steps[1..], a);
    }
  }

  /** Whatever a caller is told was settled is settled on file, with that very response. */
  lemma AnswersAreDurable(c: D.Codec<Record>, steps: seq<Step>, id: nat, res: Response)
    requires var w := Run(Start(c), steps);
             id in w.settlements && w.settlements[id].at == Answered(Some(res)) && res.success
    ensures var w := Run(Start(c), steps);
            && Backed(Disk(w), w.settlements[id].auth, res)
            && Disk(w)[w.settlements[id].auth].terms == w.settlements[id].terms
  {
    hide Latest, Admitted;
    InvAlways(c, steps);
    AtHolds(Run(Start(c), steps), id);
  }

  /** Settlements of one gateway on one network go one at a time, and a lock is never left without a holder
    * that will pass it on. */
  lemma OneAtATime(c: D.Codec<Record>, steps: seq<Step>, i: nat, j: nat)
    requires var w := Run(Start(c), steps);
             && i in w.settlements && j in w.settlements
             && InTurn(w.settlements[i].at) && InTurn(w.settlements[j].at)
             && w.settlements[i].gateway == w.settlements[j].gateway
             && w.settlements[i].terms.network == w.settlements[j].terms.network
    ensures i == j
    ensures forall key :: key in Run(Start(c), steps).turn ==>
              var w := Run(Start(c), steps);
              w.turn[key] in w.settlements && InTurn(w.settlements[w.turn[key]].at)
  {
    hide Latest, Admitted;
    InvAlways(c, steps);
    var w := Run(Start(c), steps);
    AtHolds(w, i);
    AtHolds(w, j);
    forall key | key in w.turn ensures w.turn[key] in w.settlements && InTurn(w.settlements[w.turn[key]].at) {
      assert LockHeld(w, key);
    }
  }

  // ----- a settlement is what a chain confirmed -----

  /** The chain's answer is a success for this network and payer, with a transaction. */
  predicate Matches(network: string, payer: string, outcome: Option<Response>) {
    && outcome.Some? && outcome.value.success
    && outcome.value.network == network && outcome.value.payer == payer && outcome.value.transaction != ""
  }

  /** Step s tells that the payment of rec happened: the chain's own answer to the one call that hands a over, or
    * the transaction an operator found on it. */
  predicate Confirms(w: World, s: Step, a: Auth, rec: Record) {
    || (&& s.Submit? && At(w, s.id) && w.settlements[s.id].auth == a && w.settlements[s.id].at.Journaled?
        && rec.payer == w.settlements[s.id].at.payer && rec.terms == w.settlements[s.id].terms
        && Matches(a.network, rec.payer, s.outcome) && rec.response == s.outcome)
    || (&& s.Reconcile? && s.auth == a && s.found.Some?
        && rec.response == Some(Response(true, s.found.value, a.network, rec.payer)))
  }

  /** What is written down and told when the chain's answer does not match: a failure word for word, otherwise one
    * in the gateway's own words. */
  function NoSuccess(network: string, payer: string, outcome: Option<Response>): Response {
    if outcome.Some? && !outcome.value.success then outcome.value else Response(false, "", network, payer)
  }

  /** A success the chain has answered and the journal has not recorded yet. */
  predicate Due(w: World, id: nat, a: Auth, rec: Record) {
    && id in w.settlements && w.settlements[id].auth == a && w.settlements[id].at.Submitted?
    && w.settlements[id].at.result.success
    && rec == Record(a, w.settlements[id].terms, w.settlements[id].at.payer, Settled, Some(w.settlements[id].at.result))
  }

  ghost predicate Known(w: World, a: Auth, rec: Record) {
    (SettledIn(Disk(w), a) && Disk(w)[a] == rec) || exists id :: Due(w, id, a, rec)
  }

  lemma OnlySubmitSubmits(w: World, s: Step, id: nat)
    requires id in Next(w, s).settlements && Next(w, s).settlements[id].at.Submitted? && !(s.Submit? && s.id == id)
    ensures id in w.settlements && w.settlements[id] == Next(w, s).settlements[id]
  {
    hide FileAfter, WriteRecord, Opened, Judged, Acknowledges, PendingRecord, FinalRecord, Failed;
  }

  lemma SubmitIsDue(w: World, id: nat, outcome: Option<Response>, a: Auth, rec: Record)
    requires At(w, id) && w.settlements[id].at.Journaled? && TurnOk(w, id)
    requires Due(Next(w, Submit(id, outcome)), id, a, rec)
    ensures Confirms(w, Submit(id, outcome), a, rec)
  {
  }

  lemma NewlyDue(w: World, s: Step, id: nat, a: Auth, rec: Record)
    requires Inv(w) && Due(Next(w, s), id, a, rec)
    ensures Due(w, id, a, rec) || Confirms(w, s, a, rec)
  {
    hide Latest, Admitted, FileOk, OnceOk, LocksHeld, Confirms, SettlementOk;
    if !(s.Submit? && s.id == id) {
      OnlySubmitSubmits(w, s, id);
    } else if At(w, id) && w.settlements[id].at.Journaled? {
      assert TurnOk(w, id);
      SubmitIsDue(w, id, s.outcome, a, rec);
    }
  }

  lemma NewlySettled(w: World, s: Step, a: Auth, rec: Record)
    requires Inv(w) && SettledIn(Disk(Next(w, s)), a) && Disk(Next(w, s))[a] == rec
    ensures Known(w, a, rec) || Confirms(w, s, a, rec)
  {
    hide Latest, Admitted, FileAfter, WriteRecord, SettlementsOk, OnceOk;
    if SettledIn(Disk(w), a) {
      SettledStays(w, s, a);
    } else if s.Reconcile? {
      ReconciledBy(w, s.auth, s.found, s.fate, a);
    } else if s.Reserve? || s.Finish? {
      if At(w, s.id) {
        WrittenBy(w, s, a);
      }
    } else {
      FileOnlyByWrites(w, s);
    }
  }

  lemma WrittenBy(w: World, s: Step, a: Auth)
    requires Inv(w) && (s.Reserve? || s.Finish?) && At(w, s.id)
    requires SettledIn(Disk(Next(w, s)), a) && !SettledIn(Disk(w), a)
    ensures s.Finish? && Due(w, s.id, a, Disk(Next(w, s))[a])
  {
    hide Latest, Admitted, FileAfter, WriteRecord, FileOk, OnceOk;
    var id := s.id;
    AtHolds(w, id);
    var t := w.settlements[id];
    if s.Reserve? && t.at.Verified? {
      WriteKeepsFile(w, id, PendingRecord(t, t.at.payer), s.fate);
    } else if s.Finish? && t.at.Submitted? {
      WriteKeepsFile(w, id, FinalRecord(t, t.at.payer, t.at.result), s.fate);
    }
  }

  lemma ReconciledBy(w: World, auth: Auth, found: Option<string>, fate: D.Fate, a: Auth)
    requires Inv(w)
    requires var w' := Next(w, Reconcile(auth, found, fate)); SettledIn(Disk(w'), a) && !SettledIn(Disk(w), a)
    ensures var rec := Disk(Next(w, Reconcile(auth, found, fate)))[a];
            auth == a && found.Some? && rec.response == Some(Response(true, found.value, a.network, rec.payer))
  {
    hide Latest, Admitted, SettlementsOk, OnceOk, FileAfter;
    var j := Opened(w.file).value;
    var rec := j.records[auth];
    assert RecordOk(auth, Disk(w)[auth]);
    var r := rec.(state := Settled, response := Some(Response(true, found.value, rec.terms.network, rec.payer)));
    WriteGrows(j, w.file, r, fate);
  }

  lemma StepConfirms(w: World, s: Step, a: Auth, rec: Record)
    requires Inv(w) && Known(Next(w, s), a, rec)
    ensures Known(w, a, rec) || Confirms(w, s, a, rec)
  {
    hide Inv, Next, Disk, Due, Confirms;
    if SettledIn(Disk(Next(w, s)), a) && Disk(Next(w, s))[a] == rec {
      NewlySettled(w, s, a, rec);
    } else {
      var id :| Due(Next(w, s), id, a, rec);
      NewlyDue(w, s, id, a, rec);
    }
  }

  lemma {:induction false} RunConfirms(w: World, steps: seq<Step>, a: Auth, rec: Record)
    requires Inv(w) && Known(Run(w, steps), a, rec)
    ensures Known(w, a, rec) || exists i :: 0 <= i < |steps| && Confirms(Run(w, steps[..i]), steps[i], a, rec)
    decreases |steps|
  {
    hide Inv, Next, Known, Confirms;
    if steps != [] {
      var w1, rest := Next(w, steps[0]), steps[1..];
      NextKeeps(w, steps[0]);
      RunConfirms(w1, rest, a, rec);
      if Known(w1, a, rec) {
        StepConfirms(w, steps[0], a, rec);
        assert Run(w, steps[..0]) == w;
      } else {
        var i :| 0 <= i < |rest| && Confirms(Run(w1, rest[..i]), rest[i], a, rec);
        assert steps[..i + 1][0] == steps[0] && steps[..i + 1][1..] == rest[..i];
        assert Run(w, steps[..i + 1]) == Run(w1, rest[..i]) && steps[i + 1] == rest[i];
      }
    }
  }

  lemma NothingKnown(c: D.Codec<Record>, a: Auth, rec: Record)
    ensures !Known(Start(c), a, rec)
  {
  }

  /** A settled record on file is one a chain confirmed: some step of the run was the chain's own successful answer
    * to the call that handed the authorization over, naming the recorded network, payer and transaction, or an
    * operator's recovery with the recorded transaction. */
  lemma SettledWasConfirmed(c: D.Codec<Record>, steps: seq<Step>, a: Auth)
    requires SettledIn(Disk(Run(Start(c), steps)), a)
    ensures exists i :: 0 <= i < |steps|
              && Confirms(Run(Start(c), steps[..i]), steps[i], a, Disk(Run(Start(c), steps))[a])
  {
    hide Run, Known, Confirms, Inv;
    InvAlways(c, []);
    assert Run(Start(c), []) == Start(c) by { NoSteps(Start(c)); }
    var rec := Disk(Run(Start(c), steps))[a];
    assert Known(Run(Start(c), steps), a, rec) by { IsKnown(Run(Start(c), steps), a); }
    RunConfirms(Start(c), steps, a, rec);
    NothingKnown(c, a, rec);
  }

  lemma NoSteps(w: World)
    ensures Run(w, []) == w
  {
  }

  lemma IsKnown(w: World, a: Auth)
    requires SettledIn(Disk(w), a)
    ensures Known(w, a, Disk(w)[a])
  {
  }

  // ----- and a confirmation is recorded -----

  /** The call's own authorization, terms and payer, waiting to be written down with result res. */
  predicate Pends(w: World, id: nat, t: Settlement, payer: string, res: Response) {
    id in w.settlements && w.settlements[id] == t.(at := Submitted(payer, res))
  }

  lemma PendsStays(w: World, s: Step, id: nat, t: Settlement, payer: string, res: Response)
    requires Pends(w, id, t, payer, res) && !(s.Finish? && s.id == id)
    ensures Pends(Next(w, s), id, t, payer, res)
  {
    hide FileAfter, WriteRecord, Opened;
  }

  lemma {:induction false} PendsThrough(w: World, steps: seq<Step>, id: nat, t: Settlement, payer: string, res: Response)
    requires Pends(w, id, t, payer, res) && forall i :: 0 <= i < |steps| ==> !(steps[i].Finish? && steps[i].id == id)
    ensures Pends(Run(w, steps), id, t, payer, res)
    decreases |steps|
  {
    hide Next, Pends;
    if steps != [] {
      PendsStays(w, steps[0], id, t, payer, res);
      assert forall i :: 0 <= i < |steps[1..]| ==> steps[1..][i] == steps[i + 1];
      PendsThrough(Next(w, steps[0]), steps[1..], id, t, payer, res);
    }
  }

  /** What the chain answered is what is written down and what the caller is told, whatever happens in between: a
    * matching success is recorded settled and answered word for word, anything else is recorded unknown and
    * answered as no success. */
  lemma OutcomeRecorded(w: World, id: nat, outcome: Option<Response>, between: seq<Step>)
    requires Inv(w) && At(w, id) && w.settlements[id].at.Journaled?
    requires forall i :: 0 <= i < |between| ==> !(between[i].Finish? && between[i].id == id)
    requires var w1 := Run(Next(w, Submit(id, outcome)), between); At(w1, id) && !JournalOf(w1, id).bad
    ensures var t := w.settlements[id];
            var w2 := Next(Run(Next(w, Submit(id, outcome)), between), Finish(id, D.Synced));
            && id in w2.settlements && t.auth in Disk(w2) && Disk(w2)[t.auth].payer == t.at.payer
            && (if Matches(t.terms.network, t.at.payer, outcome)
                then Disk(w2)[t.auth].state.Settled? && Disk(w2)[t.auth].response == outcome
                     && w2.settlements[id].at == Answered(outcome)
                else Disk(w2)[t.auth].state.Unknown?
                     && Disk(w2)[t.auth].response == Some(NoSuccess(t.terms.network, t.at.payer, outcome))
                     && w2.settlements[id].at == Answered(Some(NoSuccess(t.terms.network, t.at.payer, outcome))))
  {
    hide Inv, Latest, Admitted, Run;
    var t := w.settlements[id];
    var w0 := Next(w, Submit(id, outcome));
    var w1 := Run(w0, between);
    assert w0.settlements[id].at.Submitted?;
    var res := w0.settlements[id].at.result;
    assert Pends(w0, id, t, t.at.payer, res);
    PendsThrough(w0, between, id, t, t.at.payer, res);
    NextKeeps(w, Submit(id, outcome));
    RunKeeps(w0, between);
    FinishWrites(w1, id);
  }

  /** An operator who finds an unsettled payment's transaction settles its record with that transaction. */
  lemma RecoveryRecorded(w: World, a: Auth, tx: string)
    requires Inv(w) && Closed(w) && Opened(w.file).Some? && a in Disk(w) && !SettledIn(Disk(w), a)
    ensures var w' := Next(w, Reconcile(a, Some(tx), D.Synced));
            && a in Disk(w') && w'.sent == w.sent
            && Disk(w')[a] == Disk(w)[a].(state := Settled,
                                          response := Some(Response(true, tx, a.network, Disk(w)[a].payer)))
  {
    hide Latest, Admitted, SettlementsOk, OnceOk, FileAfter;
    var j := Opened(w.file).value;
    var rec := j.records[a];
    assert RecordOk(a, Disk(w)[a]);
    WriteGrows(j, w.file, rec.(state := Settled, response := Some(Response(true, tx, rec.terms.network, rec.payer))), D.Synced);
  }

  /** What a call is told of an authorization the journal knows: nothing under other terms, the recorded response of
    * a settled one, and no success while it is unresolved. It is never handed over again. */
  lemma RecordedIsTold(w: World, id: nat)
    requires Inv(w) && At(w, id) && w.settlements[id].at.Holding?
    ensures var t, records, w' := w.settlements[id], JournalOf(w, id).records, Next(w, Look(id));
            && id in w'.settlements && w'.sent == w.sent
            && (if t.auth !in records then w'.settlements[id].at == Cleared
                else if records[t.auth].terms != t.terms then w'.settlements[id].at == Answered(None)
                else if SettledIn(records, t.auth) then w'.settlements[id].at == Answered(records[t.auth].response)
                else w'.settlements[id].at == Answered(Some(Response(false, "", t.terms.network, records[t.auth].payer))))
  {
    hide Latest, Admitted, SettlementsOk, OnceOk;
    assert InstanceOk(w, w.settlements[id].gateway);
    if SettledIn(JournalOf(w, id).records, w.settlements[id].auth) {
      assert RecordOk(w.settlements[id].auth, Disk(w)[w.settlements[id].auth]);
    }
  }

  lemma FinishWrites(w: World, id: nat)
    requires Inv(w) && At(w, id) && w.settlements[id].at.Submitted? && !JournalOf(w, id).bad
    ensures var t := w.settlements[id];
            var w' := Next(w, Finish(id, D.Synced));
            && id in w'.settlements && w'.settlements[id].at == Answered(Some(t.at.result))
            && t.auth in Disk(w')
            && Disk(w')[t.auth] == Record(t.auth, t.terms, t.at.payer, if t.at.result.success then Settled else Unknown,
                                          Some(t.at.result))
  {
    hide Latest, Admitted, FileOk, OnceOk, FileAfter, WriteRecord;
    AtHolds(w, id);
    var t := w.settlements[id];
    var r := FinalRecord(t, t.at.payer, t.at.result);
    WriteKeepsFile(w, id, r, D.Synced);
  }

  lemma CodecNext(w: World, s: Step)
    ensures Next(w, s).file.codec == w.file.codec
  {
    hide WriteRecord, Opened;
  }

  lemma {:induction false} CodecStays(w: World, steps: seq<Step>)
    ensures Run(w, steps).file.codec == w.file.codec
    decreases |steps|
  {
    hide Next;
    if steps != [] {
      CodecNext(w, steps[0]);
      CodecStays(Next(w, steps[0]), steps[1..]);
    }
  }

  /** Startup refuses the bytes any run left exactly when the last line is incomplete or some line is longer than
    * the reader's limit; otherwise it reads back what the last journal held if nothing failed. */
  lemma RestartReads(c: D.Codec<Record>, steps: seq<Step>, bytes: string)
    requires D.Lawful(c) && D.Holds(bytes, Run(Start(c), steps).file)
    ensures var w := Run(Start(c), steps);
            var next := Reopened(c, bytes);
            && (next == None <==> w.file.torn || exists r :: r in w.file.lines && !D.Short(c, r, LINE_MAX))
            && (next.Some? ==> forall i :: 0 <= i < |w.gateways| && !w.gateways[i].journal.bad ==>
                  next == Some(w.gateways[i].journal))
  {
    hide Latest, Admitted, Reopened, Run, D.Short, D.Holds, D.Lawful;
    InvAlways(c, steps);
    CodecStays(Start(c), steps);
    var w := Run(Start(c), steps);
    ReopenedHolds(bytes, w.file);
    forall i | 0 <= i < |w.gateways| && !w.gateways[i].journal.bad
      ensures w.gateways[i].journal == Journal(Latest(w.file.lines), false)
    {
      assert InstanceOk(w, i);
    }
  }

  /** A caller who retries a settled authorization is given the recorded response, and nothing is sent. */
  lemma RetryIsAnswered(c: D.Codec<Record>, steps: seq<Step>, id: nat, terms: Terms, payload: string)
    requires var w := Run(Start(c), steps);
             var g := |w.gateways| - 1;
             var a := Fingerprint(terms, payload);
             && g >= 0 && !w.gateways[g].journal.bad && id !in w.settlements && (g, terms.network) !in w.turn
             && SettledIn(Disk(w), a) && Disk(w)[a].terms == terms
    ensures var w := Run(Start(c), steps);
            var w' := Run(w, [Call(id, |w.gateways| - 1, terms, payload), TakeTurn(id), Look(id)]);
            && id in w'.settlements
            && w'.settlements[id].at == Answered(Disk(w)[Fingerprint(terms, payload)].response)
            && w'.sent == w.sent
  {
    hide Latest, Admitted, Run, SettlementsOk, OnceOk, Next;
    var w := Run(Start(c), steps);
    var g := |w.gateways| - 1;
    InvAlways(c, steps);
    assert InstanceOk(w, g);
    assert RecordOk(Fingerprint(terms, payload), Disk(w)[Fingerprint(terms, payload)]);
    RecordedIsAnswered(w, id, terms, payload);
    ThreeSteps(w, Call(id, g, terms, payload), TakeTurn(id), Look(id));
  }

  lemma RecordedIsAnswered(w: World, id: nat, terms: Terms, payload: string)
    requires var g := |w.gateways| - 1;
             && g >= 0 && id !in w.settlements && (g, terms.network) !in w.turn
             && var a, j := Fingerprint(terms, payload), w.gateways[g].journal;
                SettledIn(j.records, a) && j.records[a].terms == terms && j.records[a].response.Some?
    ensures var g := |w.gateways| - 1;
            var w' := Next(Next(Next(w, Call(id, g, terms, payload)), TakeTurn(id)), Look(id));
            && id in w'.settlements && w'.sent == w.sent
            && w'.settlements[id].at == Answered(w.gateways[g].journal.records[Fingerprint(terms, payload)].response)
  {
  }
}
