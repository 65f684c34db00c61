/** Settling authorizations: any number of settlements over one journal file, with failed writes, closed
  * journals whose settlements go on, reopenings and reconcile (internal/gateway/server.go, reconcile.go). */
module Gateway {
  import opened Results
  import opened DurableLog
  import opened GatewayJournal
  import opened PaymentTypes

  /** One opened journal. At most the newest holds the file's lock. */
  datatype Instance = Instance(journal: Journal, locked: bool)

  /** How far one settle call has come. Holding to Submitted hold the instance's lock for the network. */
  datatype Pc =
    | Queued
    | Holding
    | Cleared
    | Verified(payer: string)
    | Journaled(payer: string)
    | Submitted(payer: string, result: Response)
    | Answered(answer: Option<Response>)

  datatype Settlement = Settlement(gateway: nat, auth: Auth, terms: Terms, at: Pc)

  /** sent lists every authorization handed to a chain, in order. */
  datatype World = World(file: File<Record>, gateways: seq<Instance>, turn: map<(nat, string), nat>,
                         settlements: map<nat, Settlement>, sent: seq<Auth>)

  datatype Step =
    | Open
    | Close
    | Reconcile(auth: Auth, found: Option<string>, fate: Fate)
    | Call(id: nat, gateway: nat, terms: Terms, payload: string)
    | TakeTurn(id: nat)
    | Look(id: nat)
    | Preflight(id: nat, verdict: Option<string>)
    | Reserve(id: nat, fate: Fate)
    | Submit(id: nat, outcome: Option<Response>)
    | Finish(id: nat, fate: Fate)

  /** An empty journal file, whose lines c writes and reads. */
  function Start(c: Codec<Record>): World {
    World(File(c, [], false), [], map[], map[], [])
  }

  function Disk(w: World): map<Auth, Record> {
    Latest(w.file.lines)
  }

  predicate Closed(w: World) {
    w.gateways == [] || !w.gateways[|w.gateways| - 1].locked
  }

  predicate At(w: World, id: nat) {
    id in w.settlements && w.settlements[id].gateway < |w.gateways|
  }

  function JournalOf(w: World, id: nat): Journal
    requires At(w, id)
  {
    w.gateways[w.settlements[id].gateway].journal
  }

  function Moved(w: World, id: nat, pc: Pc): World
    requires At(w, id)
  {
    w.(settlements := w.settlements[id := w.settlements[id].(at := pc)])
  }

  /** Answer the caller and pass the network's lock on. */
  function Answer(w: World, id: nat, answer: Option<Response>): World
    requires At(w, id)
  {
    var t := w.settlements[id];
    Moved(w, id, Answered(answer)).(turn := w.turn - {(t.gateway, t.terms.network)})
  }

  function Failed(network: string, payer: string): Response {
    Response(false, "", network, payer)
  }

  /** The gateway's verify operation: never preflight a recorded authorization again. */
  function VerifyAnswer(j: Journal, auth: Auth, terms: Terms, preflight: Option<string>): Option<string> {
    if auth !in j.records then preflight
    else if j.records[auth].terms != terms || j.records[auth].state.Settled? then None
    else Some(j.records[auth].payer)
  }

  function PendingRecord(t: Settlement, payer: string): Record {
    Record(t.auth, t.terms, payer, Pending, None)
  }

  function FinalRecord(t: Settlement, payer: string, res: Response): Record {
    Record(t.auth, t.terms, payer, if res.success then Settled else Unknown, Some(res))
  }

  /** A claimed success counts only with the right network and payer and a transaction. */
  function Judged(network: string, payer: string, outcome: Option<Response>): Response {
    match outcome
    case None => Failed(network, payer)
    case Some(res) =>
      if res.success && (res.network != network || res.payer != payer || res.transaction == "")
      then Failed(network, payer) else res
  }

  function Write(w: World, id: nat, r: Record, fate: Fate): World
    requires At(w, id)
  {
    var g := w.settlements[id].gateway;
    var inst := w.gateways[g];
    w.(file := FileAfter(inst.journal, w.file, r, fate),
       gateways := w.gateways[g := inst.(journal := WriteRecord(inst.journal, r, fate))])
  }

  /** What a call finds when its turn comes: only an unrecorded authorization goes on. */
  function Looked(w: World, id: nat): World
    requires At(w, id)
  {
    var t, j := w.settlements[id], JournalOf(w, id);
    if t.auth !in j.records then Moved(w, id, Cleared)
    else
      var rec := j.records[t.auth];
      if rec.terms != t.terms then Answer(w, id, None)
      else if rec.state.Settled? && rec.response.Some? then Answer(w, id, rec.response)
      else Answer(w, id, Some(Failed(t.terms.network, rec.payer)))
  }

  /** Operator recovery: a separate process that opens the journal while no gateway has it. */
  function Reconciled(w: World, auth: Auth, found: Option<string>, fate: Fate): World {
    match Opened(w.file)
    case None => w
    case Some(j) =>
      if auth !in j.records || found.None? || (j.records[auth].state.Settled? && j.records[auth].response.Some?) then w
      else
        var rec := j.records[auth];
        var r := rec.(state := Settled, response := Some(Response(true, found.value, rec.terms.network, rec.payer)));
        w.(file := FileAfter(j, w.file, r, fate))
  }

  function Advance(w: World, id: nat, s: Step): World
    requires At(w, id)
  {
    var t := w.settlements[id];
    match (s, t.at)
    case (TakeTurn(_), Queued) =>
      if (t.gateway, t.terms.network) in w.turn then w
      else Moved(w, id, Holding).(turn := w.turn[(t.gateway, t.terms.network) := id])
    case (Look(_), Holding) => Looked(w, id)
    case (Preflight(_, verdict), Cleared) =>
      if verdict.None? || verdict.value == "" then Answer(w, id, Some(Failed(t.terms.network, "")))
      else Moved(w, id, Verified(verdict.value))
    case (Reserve(_, fate), Verified(payer)) =>
      var r := PendingRecord(t, payer);
      var w' := Write(w, id, r, fate);
      if Acknowledges(JournalOf(w, id), r, fate) then Moved(w', id, Journaled(payer)) else Answer(w', id, None)
    case (Submit(_, outcome), Journaled(payer)) =>
      Moved(w, id, Submitted(payer, Judged(t.terms.network, payer, outcome))).(sent := w.sent + [t.auth])
    case (Finish(_, fate), Submitted(payer, res)) =>
      var r := FinalRecord(t, payer, res);
      var w' := Write(w, id, r, fate);
      Answer(w', id, if Acknowledges(JournalOf(w, id), r, fate) then Some(res) else None)
    case _ => w
  }

  /** One step; a step that is not possible in w leaves it alone. */
  function Next(w: World, s: Step): World {
    match s
    case Open =>
      if !Closed(w) then w
      else (match Opened(w.file)
            case None => w
            case Some(j) => w.(gateways := w.gateways + [Instance(j, true)]))
    case Close =>
      if Closed(w) then w
      else var n := |w.gateways| - 1;
           w.(gateways := w.gateways[n := Instance(w.gateways[n].journal.(bad := true), false)])
    case Reconcile(auth, found, fate) => if Closed(w) then Reconciled(w, auth, found, fate) else w
    case Call(id, g, terms, payload) =>
      if id in w.settlements || g >= |w.gateways| then w
      else w.(settlements := w.settlements[id := Settlement(g, Fingerprint(terms, payload), terms, Queued)])
    case _ => if At(w, s.id) then Advance(w, s.id, s) else w
  }

  function Run(w: World, steps: seq<Step>): World
    decreases |steps|
  {
    if steps == [] then w else Run(Next(w, steps[0]), steps[1..])
  }

  lemma ThreeSteps(w: World, a: Step, b: Step, c: Step)
    ensures Run(w, [a, b, c]) == Next(Next(Next(w, a), b), c)
  {
    hide Next;
    assert [a, b, c][1..] == [b, c] && [b, c][1..] == [c] && [c][1..] == [];
    assert Run(Next(Next(w, a), b), [c]) == Run(Next(Next(Next(w, a), b), c), []);
    assert Run(Next(w, a), [b, c]) == Run(Next(Next(w, a), b), [c]);
  }

  // ----- the invariant -----

  predicate InTurn(pc: Pc) {
    !pc.Queued? && !pc.Answered?
  }

  ghost predicate InstanceOk(w: World, i: nat)
    requires i < |w.gateways|
  {
    var Instance(j, locked) := w.gateways[i];
    && (locked ==> i == |w.gateways| - 1)
    && (!j.bad ==> locked && !w.file.torn && j.records == Disk(w))
    && (forall a :: a in j.records ==> a in Disk(w) && (j.records[a].state.Settled? ==> Disk(w)[a] == j.records[a]))
  }

  predicate RecordOk(a: Auth, r: Record) {
    && r.id == a
    && r.terms.network == a.network
    && (r.state.Settled? ==> r.response.Some? && r.response.value.success
                             && r.response.value.network == a.network && r.response.value.payer == r.payer)
  }

  ghost predicate FileOk(w: World) {
    && Admitted(w.file.lines)
    && (forall a :: a in Disk(w) ==> RecordOk(a, Disk(w)[a]))
    && (forall i :: 0 <= i < |w.gateways| ==> InstanceOk(w, i))
  }

  /** a's journal record is settled with response r, which names a's network and the recorded payer. */
  predicate Backed(disk: map<Auth, Record>, a: Auth, r: Response) {
    && SettledIn(disk, a)
    && disk[a].response == Some(r)
    && r.network == a.network
    && r.payer == disk[a].payer
  }

  ghost predicate TurnOk(w: World, id: nat)
    requires id in w.settlements
  {
    var t := w.settlements[id];
    var key := (t.gateway, t.terms.network);
    && t.gateway < |w.gateways|
    && t.auth.network == t.terms.network
    && t.auth.scheme == t.terms.scheme
    && (InTurn(t.at) ==> key in w.turn && w.turn[key] == id)
  }

  ghost predicate SettlementOk(w: World, id: nat)
    requires At(w, id)
  {
    var t := w.settlements[id];
    var records := JournalOf(w, id).records;
    match t.at
    case Cleared => t.auth !in records
    case Verified(_) => t.auth !in records
    case Journaled(payer) => t.auth in records && records[t.auth] == PendingRecord(t, payer) && t.auth !in w.sent
    case Submitted(payer, res) =>
      && t.auth in records && records[t.auth] == PendingRecord(t, payer)
      && (res.success ==> res.network == t.auth.network && res.payer == payer && res.transaction != "")
    case Answered(Some(res)) => res.success ==> Backed(Disk(w), t.auth, res) && Disk(w)[t.auth].terms == t.terms
    case _ => true
  }

  /** Every lock is held by a settlement whose turn it is, so it is passed on. */
  ghost predicate LocksHeld(w: World) {
    forall key :: key in w.turn ==> LockHeld(w, key)
  }

  ghost predicate LockHeld(w: World, key: (nat, string))
    requires key in w.turn
  {
    && w.turn[key] in w.settlements
    && var t := w.settlements[w.turn[key]];
       InTurn(t.at) && key == (t.gateway, t.terms.network)
  }

  ghost predicate SettlementsOk(w: World) {
    && LocksHeld(w)
    && (forall id :: id in w.settlements ==> TurnOk(w, id))
    && (forall id :: id in w.settlements ==> SettlementOk(w, id))
  }

  predicate IsJournaled(w: World, id: nat) {
    id in w.settlements && w.settlements[id].at.Journaled?
  }

  /** Every submission has its record on file, none happened twice, and no two are about to. */
  ghost predicate OnceOk(w: World) {
    && (forall a :: a in w.sent ==> a in Disk(w))
    && (forall i, j :: 0 <= i < j < |w.sent| ==> w.sent[i] != w.sent[j])
    && (forall i, j :: IsJournaled(w, i) && IsJournaled(w, j) && i != j ==>
          w.settlements[i].auth != w.settlements[j].auth)
  }

  ghost predicate Inv(w: World) {
    FileOk(w) && SettlementsOk(w) && OnceOk(w)
  }

  // ----- every step keeps it -----

  lemma AtHolds(w: World, id: nat)
    requires SettlementsOk(w) && id in w.settlements
    ensures At(w, id) && TurnOk(w, id) && SettlementOk(w, id)
  {
    assert TurnOk(w, id);
  }

  /** Two settlements that hold the same gateway's lock for one network are the same. */
  lemma OneInTurn(w: World, i: nat, j: nat)
    requires SettlementsOk(w) && i in w.settlements && j in w.settlements
    requires w.settlements[i].gateway == w.settlements[j].gateway && w.settlements[i].auth == w.settlements[j].auth
    requires InTurn(w.settlements[i].at) && InTurn(w.settlements[j].at)
    ensures i == j
  {
    assert TurnOk(w, i) && TurnOk(w, j);
  }

  lemma SameFile(w: World, w': World)
    requires FileOk(w) && w'.file == w.file && w'.gateways == w.gateways
    ensures FileOk(w')
  {
    hide Latest, Admitted;
    forall i | 0 <= i < |w'.gateways| ensures InstanceOk(w', i) {
      assert InstanceOk(w, i);
    }
    assert Disk(w') == Disk(w);
  }

  lemma LocksKeep(w: World, w': World, id: nat)
    requires LocksHeld(w) && id in w'.settlements && w'.settlements == w.settlements[id := w'.settlements[id]]
    requires forall key :: key in w'.turn ==>
               (key in w.turn && w'.turn[key] == w.turn[key] != id) || (w'.turn[key] == id && LockHeld(w', key))
    ensures LocksHeld(w')
  {
    forall key | key in w'.turn ensures LockHeld(w', key) {
      if w'.turn[key] != id {
        assert LockHeld(w, key);
      }
    }
  }

  /** A settlement that stays in its turn keeps its lock. */
  lemma LocksStay(w: World, w': World, id: nat)
    requires LocksHeld(w) && id in w.settlements && id in w'.settlements && w'.turn == w.turn
    requires w'.settlements == w.settlements[id := w'.settlements[id]]
    requires w'.settlements[id] == w.settlements[id].(at := w'.settlements[id].at)
    requires InTurn(w'.settlements[id].at)
    ensures LocksHeld(w')
    ensures forall key :: key in w'.turn ==>
              (key in w.turn && w'.turn[key] == w.turn[key] != id) || (w'.turn[key] == id && LockHeld(w', key))
  {
    forall key | key in w'.turn ensures LockHeld(w', key) {
      assert LockHeld(w, key);
    }
  }

  lemma LocksSame(w: World, w': World)
    requires LocksHeld(w) && w'.turn == w.turn && w'.settlements == w.settlements
    ensures LocksHeld(w')
  {
    forall key | key in w'.turn ensures LockHeld(w', key) {
      assert LockHeld(w, key);
    }
  }

  /** The only lock a settlement holds is its own network's. */
  lemma LocksPassOn(w: World, id: nat)
    requires LocksHeld(w) && id in w.settlements
    ensures var t := w.settlements[id];
            forall key :: key in w.turn && key != (t.gateway, t.terms.network) ==> w.turn[key] != id
  {
    forall key | key in w.turn && w.turn[key] == id
      ensures key == (w.settlements[id].gateway, w.settlements[id].terms.network)
    {
      assert LockHeld(w, key);
    }
  }

  /** Moving one settlement, with its answer and turn in order, disturbs no other. */
  lemma MoveKeeps(w: World, w': World, id: nat)
    requires Inv(w) && At(w, id)
    requires id in w'.settlements && w'.settlements == w.settlements[id := w'.settlements[id]]
    requires w'.file == w.file && w'.gateways == w.gateways && w'.sent == w.sent
    requires forall k :: k in w.settlements && k != id && InTurn(w.settlements[k].at) ==>
                           var key := (w.settlements[k].gateway, w.settlements[k].terms.network);
                           key in w.turn ==> key in w'.turn && w'.turn[key] == w.turn[key]
    requires forall key :: key in w'.turn ==>
               (key in w.turn && w'.turn[key] == w.turn[key] != id) || (w'.turn[key] == id && LockHeld(w', key))
    requires TurnOk(w', id) && SettlementOk(w', id) && !w'.settlements[id].at.Journaled?
    ensures Inv(w')
  {
    hide Latest, Admitted, LocksHeld, LockHeld;
    SameFile(w, w');
    LocksKeep(w, w', id);
    forall k | k in w'.settlements ensures TurnOk(w', k) && SettlementOk(w', k) {
      if k != id {
        AtHolds(w, k);
        assert w'.settlements[k] == w.settlements[k];
      }
    }
    forall k | IsJournaled(w', k) ensures IsJournaled(w, k) && w'.settlements[k] == w.settlements[k] {
      assert k != id;
    }
    assert SettlementsOk(w');
  }

  lemma TakeTurnKeeps(w: World, id: nat)
    requires Inv(w) && At(w, id) && w.settlements[id].at.Queued?
    ensures Inv(Next(w, TakeTurn(id)))
  {
    hide Latest, Admitted;
    AtHolds(w, id);
    var key := (w.settlements[id].gateway, w.settlements[id].terms.network);
    if key !in w.turn {
      MoveKeeps(w, Next(w, TakeTurn(id)), id);
    }
  }

  lemma AnswerKeeps(w: World, id: nat, answer: Option<Response>)
    requires Inv(w) && At(w, id) && InTurn(w.settlements[id].at)
    requires answer.Some? && answer.value.success ==>
               && Backed(Disk(w), w.settlements[id].auth, answer.value)
               && Disk(w)[w.settlements[id].auth].terms == w.settlements[id].terms
    ensures Inv(Answer(w, id, answer))
  {
    hide Latest, Admitted, LocksHeld, LockHeld;
    LocksPassOn(w, id);
    AtHolds(w, id);
    var t := w.settlements[id];
    var w' := Answer(w, id, answer);
    forall k | k in w.settlements && k != id && InTurn(w.settlements[k].at)
      ensures (w.settlements[k].gateway, w.settlements[k].terms.network) != (t.gateway, t.terms.network)
    {
      AtHolds(w, k);
    }
    MoveKeeps(w, w', id);
  }

  lemma LookKeeps(w: World, id: nat)
    requires Inv(w) && At(w, id) && w.settlements[id].at.Holding?
    ensures Inv(Next(w, Look(id)))
  {
    hide Latest, Admitted;
    AtHolds(w, id);
    var t, j := w.settlements[id], JournalOf(w, id);
    assert InstanceOk(w, t.gateway);
    if t.auth !in j.records {
      MoveKeeps(w, Next(w, Look(id)), id);
    } else {
      var rec := j.records[t.auth];
      assert RecordOk(t.auth, Disk(w)[t.auth]);
      if rec.terms == t.terms && rec.state.Settled? && rec.response.Some? {
        AnswerKeeps(w, id, rec.response);
      } else if rec.terms == t.terms {
        AnswerKeeps(w, id, Some(Failed(t.terms.network, rec.payer)));
      } else {
        AnswerKeeps(w, id, None);
      }
    }
  }

  lemma PreflightKeeps(w: World, id: nat, verdict: Option<string>)
    requires Inv(w) && At(w, id) && w.settlements[id].at.Cleared?
    ensures Inv(Next(w, Preflight(id, verdict)))
  {
    hide Latest, Admitted;
    AtHolds(w, id);
    if verdict.None? || verdict.value == "" {
      AnswerKeeps(w, id, Some(Failed(w.settlements[id].terms.network, "")));
    } else {
      MoveKeeps(w, Next(w, Preflight(id, verdict)), id);
    }
  }

  lemma SubmitKeeps(w: World, id: nat, outcome: Option<Response>)
    requires Inv(w) && At(w, id) && w.settlements[id].at.Journaled?
    ensures Inv(Next(w, Submit(id, outcome)))
  {
    hide Latest, Admitted, LocksHeld, LockHeld, FileOk, OnceOk;
    AtHolds(w, id);
    var t := w.settlements[id];
    var w' := Next(w, Submit(id, outcome));
    assert t.auth in Disk(w) by { assert IsJournaled(w, id); JournaledOnFile(w, id); }
    SameFile(w, w');
    LocksStay(w, w', id);
    assert SettlementsOk(w') by {
      forall k | k in w'.settlements ensures TurnOk(w', k) && SettlementOk(w', k) {
        AtHolds(w, k);
        SubmitOther(w, id, k);
      }
    }
    SubmitOnce(w, w', id);
  }

  lemma SubmitOther(w: World, id: nat, k: nat)
    requires Inv(w) && At(w, id) && At(w, k) && w.settlements[id].at.Journaled?
    ensures k != id && w.settlements[k].at.Journaled? ==> w.settlements[k].auth != w.settlements[id].auth
  {
    hide Latest, Admitted, FileOk, SettlementsOk;
    assert IsJournaled(w, id);
    assert w.settlements[k].at.Journaled? ==> IsJournaled(w, k);
  }

  lemma SubmitOnce(w: World, w': World, id: nat)
    requires Inv(w) && At(w, id) && w.settlements[id].at.Journaled? && SettlementOk(w, id)
    requires w'.file == w.file && w'.sent == w.sent + [w.settlements[id].auth]
    requires w.settlements[id].auth in Disk(w)
    requires id in w'.settlements && w'.settlements == w.settlements[id := w'.settlements[id]]
    requires !w'.settlements[id].at.Journaled?
    ensures OnceOk(w')
  {
    hide Latest, Admitted, FileOk, SettlementsOk;
    var a := w.settlements[id].auth;
    assert a !in w.sent;
    forall i, j | 0 <= i < j < |w'.sent| ensures w'.sent[i] != w'.sent[j] {
      assert w.sent[i] in w.sent;
    }
    forall k | IsJournaled(w', k) ensures IsJournaled(w, k) && w'.settlements[k] == w.settlements[k] {
      assert k != id;
    }
  }

  // ----- steps that write or reopen the file -----

  /** An append leaves every settled record as it was, and at most adds r. */
  ghost predicate Grows(before: map<Auth, Record>, after: map<Auth, Record>, r: Record) {
    && (after == before || after == before[r.id := r])
    && (SettledIn(before, r.id) ==> after == before)
  }

  lemma WriteGrows(j: Journal, f: File<Record>, r: Record, fate: Fate)
    requires Admitted(f.lines) && (!j.bad ==> !f.torn && j.records == Latest(f.lines))
    ensures var f' := FileAfter(j, f, r, fate);
            && Admitted(f'.lines) && Grows(Latest(f.lines), Latest(f'.lines), r)
            && (WriteRecord(j, r, fate).bad || (!f'.torn && WriteRecord(j, r, fate).records == Latest(f'.lines)))
            && (Acknowledges(j, r, fate) ==> Latest(f'.lines) == Latest(f.lines)[r.id := r])
            && (j.bad ==> f' == f)
            && (f'.lines == f.lines ==> Latest(f'.lines) == Latest(f.lines))
  {
    LatestSnoc(f.lines, r);
  }

  lemma GrowthKeepsFile(w: World, w': World, r: Record)
    requires FileOk(w) && RecordOk(r.id, r)
    requires Admitted(w'.file.lines) && Grows(Disk(w), Disk(w'), r)
    requires |w'.gateways| == |w.gateways|
    requires forall i :: 0 <= i < |w.gateways| ==>
               && (w'.gateways[i].locked ==> w.gateways[i].locked)
               && (w'.gateways[i].journal.bad
                   || (w'.gateways[i].locked && !w'.file.torn && w'.gateways[i].journal.records == Disk(w')))
               && (w'.gateways[i].journal.records == w.gateways[i].journal.records || !w'.gateways[i].journal.bad)
    ensures FileOk(w')
  {
    hide Latest, Admitted;
    forall i | 0 <= i < |w'.gateways| ensures InstanceOk(w', i) {
      assert InstanceOk(w, i);
    }
  }

  lemma WriteKeepsFile(w: World, id: nat, r: Record, fate: Fate)
    requires FileOk(w) && At(w, id) && RecordOk(r.id, r)
    ensures var w' := Write(w, id, r, fate);
            && FileOk(w') && Grows(Disk(w), Disk(w'), r)
            && (Acknowledges(JournalOf(w, id), r, fate) ==> Disk(w') == Disk(w)[r.id := r])
  {
    hide Latest, Admitted, FileAfter, WriteRecord;
    var g := w.settlements[id].gateway;
    assert InstanceOk(w, g);
    var j := w.gateways[g].journal;
    WriteGrows(j, w.file, r, fate);
    var w' := Write(w, id, r, fate);
    forall i | 0 <= i < |w.gateways|
      ensures w'.gateways[i].journal.bad
        || (w'.gateways[i].locked && !w'.file.torn && w'.gateways[i].journal.records == Disk(w'))
    {
      assert InstanceOk(w, i);
      if i != g {
        OnlyNewestGood(w, g, i);
      }
      assert j.bad ==> WriteRecord(j, r, fate) == j by { BadRefuses(j, r, fate); }
    }
    assert WriteRecord(j, r, fate).bad ==> WriteRecord(j, r, fate).records == j.records by { BadRefuses(j, r, fate); }
    GrowthKeepsFile(w, w', r);
  }

  lemma BadRefuses(j: Journal, r: Record, fate: Fate)
    ensures j.bad ==> WriteRecord(j, r, fate) == j
    ensures WriteRecord(j, r, fate).bad ==> WriteRecord(j, r, fate).records == j.records
  {
  }

  lemma OnlyNewestGood(w: World, i: nat, j: nat)
    requires FileOk(w) && i < |w.gateways| && j < |w.gateways| && i != j
    ensures w.gateways[i].journal.bad || w.gateways[j].journal.bad
  {
    hide Latest, Admitted;
    assert InstanceOk(w, i) && InstanceOk(w, j);
  }

  /** Everything about settlement k but its own progress. */
  ghost predicate Fine(w: World, k: nat) {
    At(w, k) && TurnOk(w, k) && SettlementOk(w, k)
  }

  lemma OtherFine(w: World, id: nat, r: Record, fate: Fate, k: nat)
    requires FileOk(w) && SettlementsOk(w) && id in w.settlements && k in w.settlements && k != id
    requires InTurn(w.settlements[id].at) && r.id == w.settlements[id].auth && RecordOk(r.id, r)
    ensures At(w, id) && Fine(Write(w, id, r, fate), k)
  {
    hide Latest, Admitted, FileAfter, FileOk;
    AtHolds(w, id);
    AtHolds(w, k);
    WriteKeepsFile(w, id, r, fate);
    var t, u := w.settlements[id], w.settlements[k];
    if u.auth == t.auth && u.gateway == t.gateway && InTurn(u.at) {
      OneInTurn(w, id, k);
    }
  }

  /** Change settlement id alone, after a write that left the others fine. */
  lemma Combine(w1: World, w': World, id: nat)
    requires FileOk(w1) && At(w1, id) && (forall k :: k in w1.settlements && k != id ==> Fine(w1, k))
    requires id in w'.settlements && w'.settlements == w1.settlements[id := w'.settlements[id]]
    requires w'.file == w1.file && w'.gateways == w1.gateways && w'.sent == w1.sent
    requires forall k :: k in w1.settlements && k != id && InTurn(w1.settlements[k].at) ==>
               var key := (w1.settlements[k].gateway, w1.settlements[k].terms.network);
               key in w1.turn ==> key in w'.turn && w'.turn[key] == w1.turn[key]
    requires LocksHeld(w1)
    requires forall key :: key in w'.turn ==>
               (key in w1.turn && w'.turn[key] == w1.turn[key] != id) || (w'.turn[key] == id && LockHeld(w', key))
    requires TurnOk(w', id) && SettlementOk(w', id)
    ensures FileOk(w') && SettlementsOk(w')
  {
    hide Latest, Admitted, LocksHeld, LockHeld;
    SameFile(w1, w');
    LocksKeep(w1, w', id);
    forall k | k in w'.settlements ensures TurnOk(w', k) && SettlementOk(w', k) {
      if k != id {
        assert Fine(w1, k);
        assert w'.settlements[k] == w1.settlements[k];
      }
    }
  }

  /** The lock passed on by one settlement is not the one another holds. */
  lemma OtherTurns(w: World, id: nat)
    requires SettlementsOk(w) && id in w.settlements && InTurn(w.settlements[id].at)
    ensures forall k :: k in w.settlements && k != id && InTurn(w.settlements[k].at) ==>
              (w.settlements[k].gateway, w.settlements[k].terms.network)
              != (w.settlements[id].gateway, w.settlements[id].terms.network)
  {
    hide SettlementOk;
    assert TurnOk(w, id);
    forall k | k in w.settlements && k != id && InTurn(w.settlements[k].at)
      ensures (w.settlements[k].gateway, w.settlements[k].terms.network)
              != (w.settlements[id].gateway, w.settlements[id].terms.network)
    {
      assert TurnOk(w, k);
    }
  }

  lemma ReserveKeeps(w: World, id: nat, fate: Fate)
    requires Inv(w) && At(w, id) && w.settlements[id].at.Verified?
    ensures Inv(Next(w, Reserve(id, fate)))
  {
    hide Latest, Admitted, FileAfter, FileOk, OnceOk, Fine;
    LocksPassOn(w, id);
    AtHolds(w, id);
    var t := w.settlements[id];
    var payer := t.at.payer;
    var r := PendingRecord(t, payer);
    var w1, w' := Write(w, id, r, fate), Next(w, Reserve(id, fate));
    WriteKeepsFile(w, id, r, fate);
    LocksSame(w, w1);
    forall k | k in w1.settlements && k != id ensures Fine(w1, k) {
      OtherFine(w, id, r, fate, k);
    }
    OtherTurns(w, id);
    ReserveOnce(w, w', id, fate);
    Combine(w1, w', id);
  }

  lemma FreshNotOnFile(w: World, id: nat, r: Record, fate: Fate)
    requires Inv(w) && At(w, id) && w.settlements[id].at.Verified? && r.id == w.settlements[id].auth
    ensures !Refuses(JournalOf(w, id), r.id) ==> r.id !in Disk(w) && r.id !in w.sent
  {
    hide Latest, Admitted;
    AtHolds(w, id);
    assert InstanceOk(w, w.settlements[id].gateway);
  }

  lemma JournaledOnFile(w: World, k: nat)
    requires Inv(w) && IsJournaled(w, k)
    ensures w.settlements[k].auth in Disk(w)
  {
    hide Latest, Admitted;
    AtHolds(w, k);
    assert InstanceOk(w, w.settlements[k].gateway);
  }

  lemma ReserveOnce(w: World, w': World, id: nat, fate: Fate)
    requires Inv(w) && At(w, id) && w.settlements[id].at.Verified? && w' == Next(w, Reserve(id, fate))
    ensures OnceOk(w')
    ensures w'.settlements[id].at.Journaled? ==> w'.settlements[id].auth !in w'.sent
  {
    hide Latest, Admitted, FileAfter, FileOk, SettlementsOk, SettlementOk, TurnOk;
    var t := w.settlements[id];
    var r := PendingRecord(t, t.at.payer);
    AtHolds(w, id);
    FreshNotOnFile(w, id, r, fate);
    PendingOk(w, id);
    WriteKeepsFile(w, id, r, fate);
    forall k | IsJournaled(w', k) && k != id
      ensures IsJournaled(w, k) && w'.settlements[k] == w.settlements[k] && w.settlements[k].auth in Disk(w)
    {
      JournaledOnFile(w, k);
    }
  }

  lemma PendingOk(w: World, id: nat)
    requires SettlementsOk(w) && id in w.settlements
    ensures forall payer :: RecordOk(w.settlements[id].auth, PendingRecord(w.settlements[id], payer))
  {
    assert TurnOk(w, id);
  }

  lemma FinishKeeps(w: World, id: nat, fate: Fate)
    requires Inv(w) && At(w, id) && w.settlements[id].at.Submitted?
    ensures Inv(Next(w, Finish(id, fate)))
  {
    hide Latest, Admitted, FileAfter, FileOk, OnceOk, LocksHeld, LockHeld, WriteRecord, Fine;
    LocksPassOn(w, id);
    AtHolds(w, id);
    var t := w.settlements[id];
    var r := FinalRecord(t, t.at.payer, t.at.result);
    assert RecordOk(r.id, r);
    var w1, w' := Write(w, id, r, fate), Next(w, Finish(id, fate));
    WriteKeepsFile(w, id, r, fate);
    LocksSame(w, w1);
    forall k | k in w1.settlements && k != id ensures Fine(w1, k) {
      OtherFine(w, id, r, fate, k);
    }
    OtherTurns(w, id);
    OnceGrows(w, w', r);
    Combine(w1, w', id);
  }

  lemma OnceGrows(w: World, w': World, r: Record)
    requires OnceOk(w) && Grows(Disk(w), Disk(w'), r) && w'.sent == w.sent
    requires forall k :: IsJournaled(w', k) ==> IsJournaled(w, k) && w'.settlements[k].auth == w.settlements[k].auth
    ensures OnceOk(w')
  {
    hide Latest, Admitted;
  }

  lemma CallLocks(w: World, w': World, id: nat)
    requires LocksHeld(w) && id !in w.settlements && id in w'.settlements && w'.turn == w.turn
    requires w'.settlements == w.settlements[id := w'.settlements[id]]
    ensures LocksHeld(w')
  {
    forall key | key in w'.turn ensures LockHeld(w', key) {
      assert LockHeld(w, key);
    }
  }

  lemma CallKeeps(w: World, id: nat, g: nat, terms: Terms, payload: string)
    requires Inv(w)
    ensures Inv(Next(w, Call(id, g, terms, payload)))
  {
    hide Latest, Admitted, LocksHeld, LockHeld, FileOk;
    var w' := Next(w, Call(id, g, terms, payload));
    if w' != w {
      SameFile(w, w');
      CallLocks(w, w', id);
      forall k | k in w'.settlements ensures TurnOk(w', k) && SettlementOk(w', k) {
        if k != id {
          AtHolds(w, k);
        }
      }
      forall k | IsJournaled(w', k) ensures IsJournaled(w, k) && w'.settlements[k] == w.settlements[k] {
        assert k != id;
      }
    }
  }

  /** Opening and closing journals leave every settlement where it was. */
  lemma InstancesChange(w: World, w': World)
    requires SettlementsOk(w) && w'.(gateways := w.gateways) == w && |w'.gateways| >= |w.gateways|
    requires forall i :: 0 <= i < |w.gateways| ==> w'.gateways[i].journal.records == w.gateways[i].journal.records
    requires OnceOk(w)
    ensures SettlementsOk(w') && OnceOk(w')
  {
    hide Latest, Admitted;
    forall k | k in w'.settlements ensures TurnOk(w', k) && SettlementOk(w', k) {
      AtHolds(w, k);
    }
    forall k | IsJournaled(w', k) ensures IsJournaled(w, k) {}
    assert Disk(w') == Disk(w);
  }

  lemma OpenKeeps(w: World)
    requires Inv(w)
    ensures Inv(Next(w, Open))
  {
    hide Latest, Admitted, SettlementsOk, OnceOk;
    var w' := Next(w, Open);
    if w' != w {
      forall i | 0 <= i < |w'.gateways| ensures InstanceOk(w', i) {
        if i < |w.gateways| {
          assert InstanceOk(w, i) && InstanceOk(w, |w.gateways| - 1);
        }
      }
      assert Disk(w') == Disk(w);
      assert FileOk(w');
      InstancesChange(w, w');
    }
  }

  lemma CloseKeeps(w: World)
    requires Inv(w)
    ensures Inv(Next(w, Close))
  {
    hide Latest, Admitted, SettlementsOk, OnceOk;
    var w' := Next(w, Close);
    if w' != w {
      forall i | 0 <= i < |w'.gateways| ensures InstanceOk(w', i) {
        assert InstanceOk(w, i);
      }
      assert Disk(w') == Disk(w);
      assert FileOk(w');
      InstancesChange(w, w');
    }
  }

  lemma ReconcileGrows(w: World, auth: Auth, found: Option<string>, fate: Fate)
    requires Inv(w) && Closed(w)
    ensures var w' := Next(w, Reconcile(auth, found, fate));
            && w'.(file := w.file) == w && FileOk(w')
            && (forall a :: a in Disk(w) ==> a in Disk(w'))
            && (forall a :: SettledIn(Disk(w), a) ==> Disk(w')[a] == Disk(w)[a])
            && (forall a :: a in Disk(w') ==> a in Disk(w))
  {
    hide Latest, Admitted, SettlementsOk, OnceOk, FileAfter;
    var w' := Next(w, Reconcile(auth, found, fate));
    if w' != w {
      var j := Opened(w.file).value;
      var rec := j.records[auth];
      assert RecordOk(auth, Disk(w)[auth]);
      var r := rec.(state := Settled, response := Some(Response(true, found.value, rec.terms.network, rec.payer)));
      WriteGrows(j, w.file, r, fate);
      forall i | 0 <= i < |w.gateways| ensures w'.gateways[i].journal.bad {
        assert InstanceOk(w, i) && InstanceOk(w, |w.gateways| - 1);
      }
      GrowthKeepsFile(w, w', r);
    }
  }

  lemma ReconcileKeeps(w: World, auth: Auth, found: Option<string>, fate: Fate)
    requires Inv(w)
    ensures Inv(Next(w, Reconcile(auth, found, fate)))
  {
    hide Latest, Admitted, Reconciled, FileOk;
    if Closed(w) {
      ReconcileGrows(w, auth, found, fate);
      var w' := Next(w, Reconcile(auth, found, fate));
      forall k | k in w'.settlements ensures TurnOk(w', k) && SettlementOk(w', k) {
        AtHolds(w, k);
      }
    }
  }

  lemma AdvanceKeeps(w: World, id: nat, s: Step)
    requires Inv(w) && At(w, id) && !s.Open? && !s.Close? && !s.Reconcile? && !s.Call? && s.id == id
    ensures Inv(Next(w, s))
  {
    hide Inv, Moved, Answer, Looked, Write;
    var t := w.settlements[id];
    match (s, t.at)
    case (TakeTurn(_), Queued) => TakeTurnKeeps(w, id);
    case (Look(_), Holding) => LookKeeps(w, id);
    case (Preflight(_, verdict), Cleared) => PreflightKeeps(w, id, verdict);
    case (Reserve(_, fate), Verified(payer)) => ReserveKeeps(w, id, fate);
    case (Submit(_, outcome), Journaled(payer)) => SubmitKeeps(w, id, outcome);
    case (Finish(_, fate), Submitted(payer, res)) => FinishKeeps(w, id, fate);
    case _ =>
  }

  lemma NextKeeps(w: World, s: Step)
    requires Inv(w)
    ensures Inv(Next(w, s))
  {
    hide Inv, Advance, Reconciled, At;
    match s
    case Open => OpenKeeps(w);
    case Close => CloseKeeps(w);
    case Reconcile(auth, found, fate) => ReconcileKeeps(w, auth, found, fate);
    case Call(id, g, terms, payload) => CallKeeps(w, id, g, terms, payload);
    case _ =>
      if At(w, s.id) {
        AdvanceKeeps(w, s.id, s);
      }
  }

  lemma {:induction false} RunKeeps(w: World, steps: seq<Step>)
    requires Inv(w)
    ensures Inv(Run(w, steps))
    decreases |steps|
  {
    hide Inv, Next;
    if steps != [] {
      NextKeeps(w, steps[0]);
      RunKeeps(Next(w, steps[0]), steps[1..]);
    }
  }

  lemma InvAlways(c: Codec<Record>, steps: seq<Step>)
    ensures Inv(Run(Start(c), steps))
  {
    RunKeeps(Start(c), steps);
  }
}
