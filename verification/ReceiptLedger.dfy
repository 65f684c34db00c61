/** The fast lane's append-only receipt ledger and its four indexes (internal/fastlane/store.go). */
module ReceiptLedger {
  import opened Results
  import opened DurableLog
  import opened PaymentTypes

  /** policy is the ID the policy service gave its approval; nothing bounds its length. */
  datatype Receipt = Receipt(session: string, fingerprint: Auth, state: PayState, network: string, payer: string,
                             transaction: string, policy: string, expires: nat)

  datatype Indexes = Indexes(bySession: map<string, Receipt>, byFingerprint: map<Auth, string>,
                             receipts: map<Auth, Receipt>, byTransaction: map<string, Auth>)

  datatype Ledger = Ledger(ix: Indexes, max: nat, bad: bool)

  const Empty := Indexes(map[], map[], map[], map[])

  function KeyOf(r: Receipt): string {
    r.network + ":" + r.transaction
  }

  predicate Accepts(ix: Indexes, r: Receipt) {
    && r.session != "" && r.network != ""
    && (r.fingerprint in ix.byFingerprint ==> ix.byFingerprint[r.fingerprint] == r.session)
    && (r.transaction != "" && KeyOf(r) in ix.byTransaction ==> ix.byTransaction[KeyOf(r)] == r.fingerprint)
  }

  function Apply(ix: Indexes, r: Receipt): Indexes {
    Indexes(ix.bySession[r.session := r], ix.byFingerprint[r.fingerprint := r.session],
            ix.receipts[r.fingerprint := r],
            if r.transaction != "" then ix.byTransaction[KeyOf(r) := r.fingerprint] else ix.byTransaction)
  }

  predicate Full(l: Ledger, r: Receipt) {
    r.fingerprint !in l.ix.byFingerprint && |l.ix.byFingerprint| >= l.max
  }

  predicate Refuses(l: Ledger, r: Receipt) {
    l.bad || !Accepts(l.ix, r) || Full(l, r)
  }

  function WriteReceipt(l: Ledger, r: Receipt, fate: Fate): Ledger {
    if Refuses(l, r) then l
    else if fate.Synced? then l.(ix := Apply(l.ix, r))
    else l.(bad := true)
  }

  function FileAfter(l: Ledger, f: File<Receipt>, r: Receipt, fate: Fate): File<Receipt> {
    if Refuses(l, r) then f else Append(f, r, fate)
  }

  predicate Acknowledges(l: Ledger, r: Receipt, fate: Fate) {
    !Refuses(l, r) && fate.Synced?
  }

  // ----- replay -----

  function Replayed(lines: seq<Receipt>): Indexes {
    if lines == [] then Empty else Apply(Replayed(lines[..|lines| - 1]), lines[|lines| - 1])
  }

  predicate Admitted(lines: seq<Receipt>) {
    lines == [] ||
    (Admitted(lines[..|lines| - 1]) && Accepts(Replayed(lines[..|lines| - 1]), lines[|lines| - 1]))
  }

  /** The longest line, with its line break, that opening reads. */
  const LINE_MAX := 0x2_0000

  function Opened(f: File<Receipt>, max: nat): Option<Ledger> {
    if f.torn || !Fits(f.codec, f.lines, LINE_MAX) || !Admitted(f.lines) then None
    else Some(Ledger(Replayed(f.lines), max, false))
  }

  /** What opening makes of a file's bytes. */
  function Reopened(c: Codec<Receipt>, bytes: string, max: nat): Option<Ledger> {
    match Decoded(c, bytes, LINE_MAX)
    case None => None
    case Some(rs) => if Admitted(rs) then Some(Ledger(Replayed(rs), max, false)) else None
  }

  lemma ReopenedHolds(bytes: string, f: File<Receipt>, max: nat)
    requires Lawful(f.codec) && Holds(bytes, f)
    ensures Reopened(f.codec, bytes, max) == Opened(f, max)
  {
    hide Decoded, Admitted, Replayed, Fits, Holds;
    ReopenHolds(bytes, f, LINE_MAX);
  }

  lemma ReplayedSnoc(lines: seq<Receipt>, r: Receipt)
    ensures Replayed(lines + [r]) == Apply(Replayed(lines), r)
    ensures Admitted(lines + [r]) <==> Admitted(lines) && Accepts(Replayed(lines), r)
  {
    assert (lines + [r])[..|lines|] == lines;
  }

  lemma {:induction false} AdmittedPrefix(a: seq<Receipt>, b: seq<Receipt>)
    requires Admitted(a + b)
    ensures Admitted(a)
  {
    if b == [] {
      assert a + b == a;
    } else {
      assert (a + b)[..|a + b| - 1] == a + b[..|b| - 1];
      AdmittedPrefix(a, b[..|b| - 1]);
    }
  }

  // ----- the indexes agree -----

  /** Each index entry is the one the others imply: sessions and fingerprints map to each other, a session's
    * entry is one of its receipts, and a transaction belongs to exactly the receipt that carries it. */
  ghost predicate Consistent(ix: Indexes) {
    ReceiptsAgree(ix) && TransactionsAgree(ix) && SessionsAgree(ix)
  }

  ghost predicate ReceiptsAgree(ix: Indexes) {
    && (forall fp :: fp in ix.receipts <==> fp in ix.byFingerprint)
    && (forall fp :: fp in ix.receipts ==>
          && ix.receipts[fp].fingerprint == fp
          && ix.byFingerprint[fp] == ix.receipts[fp].session
          && ix.receipts[fp].session in ix.bySession)
  }

  ghost predicate TransactionsAgree(ix: Indexes) {
    forall fp :: fp in ix.receipts && ix.receipts[fp].transaction != "" ==>
      KeyOf(ix.receipts[fp]) in ix.byTransaction && ix.byTransaction[KeyOf(ix.receipts[fp])] == fp
  }

  ghost predicate SessionsAgree(ix: Indexes) {
    forall s :: s in ix.bySession ==>
      && ix.bySession[s].session == s
      && ix.bySession[s].fingerprint in ix.receipts
      && ix.receipts[ix.bySession[s].fingerprint] == ix.bySession[s]
  }

  lemma ApplyReceiptsAgree(ix: Indexes, r: Receipt)
    requires ReceiptsAgree(ix)
    ensures ReceiptsAgree(Apply(ix, r))
  {
  }

  lemma ApplyTransactionsAgree(ix: Indexes, r: Receipt)
    requires TransactionsAgree(ix) && Accepts(ix, r)
    ensures TransactionsAgree(Apply(ix, r))
  {
    hide KeyOf;
  }

  lemma ApplySessionsAgree(ix: Indexes, r: Receipt)
    requires SessionsAgree(ix) && ReceiptsAgree(ix) && Accepts(ix, r)
    ensures SessionsAgree(Apply(ix, r))
  {
    hide KeyOf;
  }

  lemma ApplyConsistent(ix: Indexes, r: Receipt)
    requires Consistent(ix) && Accepts(ix, r)
    ensures Consistent(Apply(ix, r))
  {
    hide Apply, Accepts, ReceiptsAgree, TransactionsAgree, SessionsAgree;
    ApplyReceiptsAgree(ix, r);
    ApplyTransactionsAgree(ix, r);
    ApplySessionsAgree(ix, r);
  }

  /** The four indexes stay consistent over any file the ledger admits. */
  lemma {:induction false} ReplayedConsistent(lines: seq<Receipt>)
    requires Admitted(lines)
    ensures Consistent(Replayed(lines))
  {
    if lines != [] {
      ReplayedConsistent(lines[..|lines| - 1]);
      ApplyConsistent(Replayed(lines[..|lines| - 1]), lines[|lines| - 1]);
    }
  }

  /** No chain transaction is redeemed by two fingerprints, and no fingerprint by two sessions. */
  lemma RedeemedOnce(lines: seq<Receipt>, s: string, t: string)
    requires Admitted(lines)
    requires s in Replayed(lines).bySession && t in Replayed(lines).bySession && s != t
    ensures var a, b := Replayed(lines).bySession[s], Replayed(lines).bySession[t];
            && a.fingerprint != b.fingerprint
            && (a.transaction != "" ==> (a.network, a.transaction) != (b.network, b.transaction))
  {
    ReplayedConsistent(lines);
  }

  // ----- which files are admitted -----

  /** Two receipts may be in one file: a fingerprint keeps its session, and a transaction its fingerprint. */
  predicate Agree(a: Receipt, b: Receipt) {
    && (a.fingerprint == b.fingerprint ==> a.session == b.session)
    && (a.transaction != "" && b.transaction != "" && KeyOf(a) == KeyOf(b) ==> a.fingerprint == b.fingerprint)
  }

  /** The file's lines are in the two indexes, */
  ghost predicate Shown(lines: seq<Receipt>, ix: Indexes) {
    forall i :: 0 <= i < |lines| ==>
      && lines[i].fingerprint in ix.byFingerprint && ix.byFingerprint[lines[i].fingerprint] == lines[i].session
      && (lines[i].transaction != "" ==>
            KeyOf(lines[i]) in ix.byTransaction && ix.byTransaction[KeyOf(lines[i])] == lines[i].fingerprint)
  }

  predicate Carries(r: Receipt, key: string) { r.transaction != "" && KeyOf(r) == key }

  /** and nothing else is. */
  ghost predicate Only(lines: seq<Receipt>, ix: Indexes) {
    && (forall fp :: fp in ix.byFingerprint ==> exists i :: 0 <= i < |lines| && lines[i].fingerprint == fp)
    && (forall key :: key in ix.byTransaction ==> exists i :: 0 <= i < |lines| && Carries(lines[i], key))
  }

  lemma ShownSnoc(lines: seq<Receipt>, ix: Indexes, r: Receipt)
    requires Shown(lines, ix) && Accepts(ix, r)
    ensures Shown(lines + [r], Apply(ix, r))
  {
    hide KeyOf;
  }

  lemma OnlySnoc(lines: seq<Receipt>, ix: Indexes, r: Receipt)
    requires Only(lines, ix)
    ensures Only(lines + [r], Apply(ix, r))
  {
    hide KeyOf;
    var all, ix' := lines + [r], Apply(ix, r);
    assert all[|lines|] == r;
    forall fp | fp in ix'.byFingerprint ensures exists i :: 0 <= i < |all| && all[i].fingerprint == fp {
      if fp != r.fingerprint {
        var i :| 0 <= i < |lines| && lines[i].fingerprint == fp;
        assert all[i] == lines[i];
      }
    }
    forall key | key in ix'.byTransaction ensures exists i :: 0 <= i < |all| && Carries(all[i], key) {
      if !Carries(r, key) {
        var i :| 0 <= i < |lines| && Carries(lines[i], key);
        assert all[i] == lines[i];
      }
    }
  }

  lemma {:induction false} AdmittedIndexed(lines: seq<Receipt>)
    requires Admitted(lines)
    ensures Shown(lines, Replayed(lines)) && Only(lines, Replayed(lines))
  {
    hide Accepts, Apply;
    if lines != [] {
      var front, r := lines[..|lines| - 1], lines[|lines| - 1];
      AdmittedIndexed(front);
      ShownSnoc(front, Replayed(front), r);
      OnlySnoc(front, Replayed(front), r);
      assert lines == front + [r];
    }
  }

  /** Validation takes a receipt exactly when it names a session and a network and agrees with every line before it. */
  lemma AcceptsExactly(lines: seq<Receipt>, r: Receipt)
    requires Admitted(lines)
    ensures Accepts(Replayed(lines), r) <==>
              && r.session != "" && r.network != ""
              && forall i :: 0 <= i < |lines| ==> Agree(lines[i], r)
  {
    hide KeyOf, Replayed, Admitted;
    AdmittedIndexed(lines);
    var ix := Replayed(lines);
    if r.fingerprint in ix.byFingerprint {
      var i :| 0 <= i < |lines| && lines[i].fingerprint == r.fingerprint;
    }
    if r.transaction != "" && KeyOf(r) in ix.byTransaction {
      var i :| 0 <= i < |lines| && Carries(lines[i], KeyOf(r));
    }
  }

  /** A file is admitted exactly when every line names a session and a network and every two lines agree. */
  lemma {:induction false} AdmittedExactly(lines: seq<Receipt>)
    ensures Admitted(lines) <==>
              && (forall i :: 0 <= i < |lines| ==> lines[i].session != "" && lines[i].network != "")
              && (forall i, j :: 0 <= i < j < |lines| ==> Agree(lines[i], lines[j]))
  {
    hide Accepts, Agree;
    if lines != [] {
      var n := |lines| - 1;
      AdmittedExactly(lines[..n]);
      if Admitted(lines[..n]) {
        AcceptsExactly(lines[..n], lines[n]);
      }
    }
  }

  // ----- in step with the file -----

  ghost predicate InStep(l: Ledger, f: File<Receipt>) {
    && Admitted(f.lines)
    && (!l.bad ==> !f.torn && l.ix == Replayed(f.lines))
  }

  lemma WriteStaysInStep(l: Ledger, f: File<Receipt>, r: Receipt, fate: Fate)
    requires InStep(l, f)
    ensures InStep(WriteReceipt(l, r, fate), FileAfter(l, f, r, fate))
  {
    ReplayedSnoc(f.lines, r);
  }

  function BytesAfter(l: Ledger, c: Codec<Receipt>, bytes: string, r: Receipt, io: Io): string {
    if Refuses(l, r) then bytes else Appended(c, bytes, r, io)
  }

  lemma WriteHolds(l: Ledger, f: File<Receipt>, bytes: string, r: Receipt, io: Io)
    requires Lawful(f.codec) && Holds(bytes, f) && InStep(l, f)
    ensures Holds(BytesAfter(l, f.codec, bytes, r, io), FileAfter(l, f, r, LineFate(f.codec, r, io)))
  {
    hide Holds, Lawful, Appended, LineFate, Accepts, Full;
    if !Refuses(l, r) {
      AppendHolds(bytes, f, r, io);
    }
  }

  /** One session of a ledger: the receipts written, each with what the operating system did with its line.
    * It leaves the ledger, the file and the file's bytes. */
  function Session(l: Ledger, f: File<Receipt>, bytes: string, writes: seq<(Receipt, Io)>): (Ledger, File<Receipt>, string)
    decreases |writes|
  {
    if writes == [] then (l, f, bytes)
    else
      var (r, io) := writes[0];
      var fate := LineFate(f.codec, r, io);
      Session(WriteReceipt(l, r, fate), FileAfter(l, f, r, fate), BytesAfter(l, f.codec, bytes, r, io), writes[1..])
  }

  lemma {:induction false} BadStops(l: Ledger, f: File<Receipt>, bytes: string, writes: seq<(Receipt, Io)>)
    requires l.bad
    ensures Session(l, f, bytes, writes) == (l, f, bytes)
  {
    hide LineFate, Appended;
    if writes != [] {
      BadStops(l, f, bytes, writes[1..]);
    }
  }

  predicate AddsOne(l: Ledger, r: Receipt, ix: Indexes) {
    Accepts(l.ix, r) && ix == Apply(l.ix, r)
  }

  /** The session's bytes are its file, and the file holds the acknowledged receipts, or those and the one whose
    * write failed. */
  lemma {:induction false} SessionHolds(l: Ledger, f: File<Receipt>, bytes: string, writes: seq<(Receipt, Io)>)
    requires Lawful(f.codec) && Holds(bytes, f)
    requires InStep(l, f) && !f.torn && (l.bad ==> l.ix == Replayed(f.lines))
    ensures var (l', f', bytes') := Session(l, f, bytes, writes);
            && f'.codec == f.codec && l'.max == l.max && Holds(bytes', f') && Admitted(f'.lines)
            && (!f'.torn ==>
                  || Replayed(f'.lines) == l'.ix
                  || (l'.bad && exists i :: 0 <= i < |writes| && AddsOne(l', writes[i].0, Replayed(f'.lines))))
    decreases |writes|
  {
    hide Accepts, Apply, Full, Holds, Lawful, Appended, LineFate, BytesAfter;
    if writes != [] {
      var (r, io) := writes[0];
      var fate := LineFate(f.codec, r, io);
      ReplayedSnoc(f.lines, r);
      WriteHolds(l, f, bytes, r, io);
      var l1, f1, bytes1 := WriteReceipt(l, r, fate), FileAfter(l, f, r, fate), BytesAfter(l, f.codec, bytes, r, io);
      if Refuses(l, r) || fate.Synced? || fate.Lost? {
        SessionHolds(l1, f1, bytes1, writes[1..]);
        assert forall i :: 0 <= i < |writes[1..]| ==> writes[1..][i] == writes[i + 1];
      } else {
        BadStops(l1, f1, bytes1, writes[1..]);
        assert writes[0].0 == r;
      }
    }
  }

  /** Reopening the bytes any session left refuses exactly a torn file or one with an overlong line; otherwise it
    * rebuilds the indexes of the acknowledged receipts, or those with the one receipt whose write failed added. */
  lemma ReopenRebuilds(l: Ledger, f: File<Receipt>, bytes: string, writes: seq<(Receipt, Io)>)
    requires Lawful(f.codec) && Holds(bytes, f)
    requires InStep(l, f) && !f.torn && (l.bad ==> l.ix == Replayed(f.lines))
    ensures var (l', f', bytes') := Session(l, f, bytes, writes);
            var next := Reopened(f.codec, bytes', l.max);
            && (next == None <==> f'.torn || exists r :: r in f'.lines && !Short(f.codec, r, LINE_MAX))
            && (next.Some? ==>
                  || next == Some(l'.(bad := false))
                  || (l'.bad && next.value == Ledger(next.value.ix, l.max, false)
                      && exists i :: 0 <= i < |writes| && AddsOne(l', writes[i].0, next.value.ix)))
  {
    hide Holds, Lawful, Decoded, Admitted, Replayed, Session, Reopened, AddsOne, Short;
    var (l', f', bytes') := Session(l, f, bytes, writes);
    SessionHolds(l, f, bytes, writes);
    ReopenedHolds(bytes', f', l.max);
  }

  lemma {:induction false} SessionFits(l: Ledger, f: File<Receipt>, bytes: string, writes: seq<(Receipt, Io)>)
    requires Fits(f.codec, f.lines, LINE_MAX)
    requires forall i :: 0 <= i < |writes| ==> Short(f.codec, writes[i].0, LINE_MAX)
    ensures var (_, f', _) := Session(l, f, bytes, writes); Fits(f.codec, f'.lines, LINE_MAX)
    decreases |writes|
  {
    hide Fits, Short, Accepts, Full, LineFate, BytesAfter;
    if writes != [] {
      var (r, io) := writes[0];
      var fate := LineFate(f.codec, r, io);
      assert r == writes[0].0;
      FitsSnoc(f.codec, f.lines, r, LINE_MAX);
      assert forall i :: 0 <= i < |writes[1..]| ==> writes[1..][i] == writes[i + 1];
      SessionFits(WriteReceipt(l, r, fate), FileAfter(l, f, r, fate), BytesAfter(l, f.codec, bytes, r, io), writes[1..]);
    }
  }

  /** A writer that checks each line against the reader's limit first leaves a file that reopening refuses only when
    * it is torn. */
  lemma CheckedReopens(l: Ledger, f: File<Receipt>, bytes: string, writes: seq<(Receipt, Io)>)
    requires Lawful(f.codec) && Holds(bytes, f) && Fits(f.codec, f.lines, LINE_MAX)
    requires InStep(l, f) && !f.torn && (l.bad ==> l.ix == Replayed(f.lines))
    requires forall i :: 0 <= i < |writes| ==> Short(f.codec, writes[i].0, LINE_MAX)
    ensures var (_, f', bytes') := Session(l, f, bytes, writes);
            Reopened(f.codec, bytes', l.max) == None <==> f'.torn
  {
    hide Fits, Short, InStep, Holds, Lawful, Reopened, Session, Replayed, Admitted;
    var (l', f', bytes') := Session(l, f, bytes, writes);
    SessionHolds(l, f, bytes, writes);
    SessionFits(l, f, bytes, writes);
    ReopenedHolds(bytes', f', l.max);
  }

  /** An acknowledged receipt lets the ledger be reopened exactly when its line is within the reader's limit. */
  lemma AcknowledgedReopens(l: Ledger, f: File<Receipt>, bytes: string, r: Receipt)
    requires Lawful(f.codec) && Holds(bytes, f) && InStep(l, f) && Fits(f.codec, f.lines, LINE_MAX)
    requires Acknowledges(l, r, LineFate(f.codec, r, Durable))
    ensures var next := Reopened(f.codec, BytesAfter(l, f.codec, bytes, r, Durable), l.max);
            && (next.Some? <==> Short(f.codec, r, LINE_MAX))
            && (next.Some? ==> next == Some(WriteReceipt(l, r, Synced)))
  {
    hide Holds, Lawful, Appended, Fits, Short, Reopened, Accepts, Full, Apply;
    WriteHolds(l, f, bytes, r, Durable);
    ReopenedHolds(BytesAfter(l, f.codec, bytes, r, Durable), FileAfter(l, f, r, Synced), l.max);
    ReplayedSnoc(f.lines, r);
    FitsSnoc(f.codec, f.lines, r, LINE_MAX);
  }

  // ----- the ledger object -----

  class LedgerFile {
    const codec: Codec<Receipt>
    const disk: Disk
    const max: nat
    var bad: bool
    var bySession: map<string, Receipt>
    var byFingerprint: map<Auth, string>
    var receipts: map<Auth, Receipt>
    var byTransaction: map<string, Auth>

    constructor (codec: Codec<Receipt>, disk: Disk, max: nat)
      ensures this.codec == codec && this.disk == disk && State() == Ledger(Empty, max, false)
    {
      this.codec, this.disk, this.max, bad := codec, disk, max, false;
      bySession, byFingerprint, receipts, byTransaction := map[], map[], map[], map[];
    }

    ghost function State(): Ledger
      reads this
    {
      Ledger(Indexes(bySession, byFingerprint, receipts, byTransaction), max, bad)
    }

    ghost predicate Valid(f: File<Receipt>)
      reads this, disk
    {
      Lawful(codec) && f.codec == codec && Holds(disk.bytes, f) && InStep(State(), f)
    }

    method Validate(r: Receipt) returns (ok: bool)
      ensures ok <==> Accepts(State().ix, r)
    {
      if r.session == "" || r.network == "" {
        return false;
      }
      if r.fingerprint in byFingerprint && byFingerprint[r.fingerprint] != r.session {
        return false;
      }
      if r.transaction != "" && KeyOf(r) in byTransaction && byTransaction[KeyOf(r)] != r.fingerprint {
        return false;
      }
      return true;
    }

    method ApplyReceipt(r: Receipt)
      modifies this
      ensures State() == old(State()).(ix := Apply(old(State()).ix, r))
    {
      bySession := bySession[r.session := r];
      byFingerprint := byFingerprint[r.fingerprint := r.session];
      receipts := receipts[r.fingerprint := r];
      if r.transaction != "" {
        byTransaction := byTransaction[KeyOf(r) := r.fingerprint];
      }
    }

    method Get(session: string) returns (r: Option<Receipt>)
      ensures r == if session in State().ix.bySession then Some(State().ix.bySession[session]) else None
    {
      r := if session in bySession then Some(bySession[session]) else None;
    }

    method GetByFingerprint(fp: Auth) returns (r: Option<Receipt>)
      ensures r == if fp in State().ix.receipts then Some(State().ix.receipts[fp]) else None
    {
      r := if fp in receipts then Some(receipts[fp]) else None;
    }

    method Write(r: Receipt, io: Io, ghost f: File<Receipt>) returns (ok: bool)
      requires Valid(f)
      modifies this, disk
      ensures var fate := LineFate(codec, r, io);
              && State() == WriteReceipt(old(State()), r, fate)
              && Valid(FileAfter(old(State()), f, r, fate))
              && (ok <==> Acknowledges(old(State()), r, fate))
    {
      hide Apply, Accepts, Replayed;
      ghost var fate := LineFate(codec, r, io);
      WriteStaysInStep(State(), f, r, fate);
      if bad {
        return false;
      }
      var fine := Validate(r);
      if !fine {
        return false;
      }
      if r.fingerprint !in byFingerprint && |byFingerprint| >= max {
        return false;
      }
      AppendHolds(disk.bytes, f, r, io);
      var done := disk.Write(codec.enc(r) + "\n", io);
      if !done {
        bad := true;
        return false;
      }
      ApplyReceipt(r);
      return true;
    }

    method Close()
      modifies this
      ensures State() == old(State()).(bad := true)
    {
      bad := true;
    }
  }

  /** Opening reads every line into the indexes; it succeeds exactly when the text is complete lines that all
    * decode, fit the reader and pass validation in turn. */
  method OpenLedger(codec: Codec<Receipt>, disk: Disk, max: nat) returns (l: LedgerFile?)
    ensures disk.bytes == old(disk.bytes)
    ensures l == null || (fresh(l) && l.codec == codec && l.disk == disk)
    ensures match Reopened(codec, disk.bytes, max)
            case None => l == null
            case Some(state) => l != null && l.State() == state
  {
    hide Decoded, Admitted, Replayed, After, Apply, Accepts;
    var rest := disk.bytes;
    var ledger := new LedgerFile(codec, disk, max);
    ghost var done: seq<Receipt> := [];
    NothingRead(codec, disk.bytes, LINE_MAX);
    while rest != ""
      invariant Admitted(done) && ledger.State() == Ledger(Replayed(done), max, false)
      invariant disk.bytes == old(disk.bytes)
      invariant Decoded(codec, disk.bytes, LINE_MAX) == After(done, Decoded(codec, rest, LINE_MAX))
      decreases |rest|
    {
      var k := FirstBreak(rest);
      ReadLine(codec, done, rest, LINE_MAX);
      if k == |rest| || k + 1 > LINE_MAX {
        return null;
      }
      var line := codec.dec(TrimReturn(rest[..k]));
      if line.None? {
        return null;
      }
      var r := line.value;
      ReplayedSnoc(done, r);
      var fine := ledger.Validate(r);
      if !fine {
        RejectRefused(done + [r], Decoded(codec, rest[k + 1..], LINE_MAX));
        return null;
      }
      ledger.ApplyReceipt(r);
      done := done + [r];
      rest := rest[k + 1..];
    }
    AllRead(codec, done, LINE_MAX);
    l := ledger;
  }

  lemma RejectRefused(done: seq<Receipt>, more: Option<seq<Receipt>>)
    requires !Admitted(done)
    ensures After(done, more).Some? ==> !Admitted(After(done, more).value)
  {
    if more.Some? && Admitted(done + more.value) {
      AdmittedPrefix(done, more.value);
    }
  }

  lemma NothingRead(c: Codec<Receipt>, text: string, max: nat)
    ensures Decoded(c, text, max) == After([], Decoded(c, text, max))
    ensures Admitted([]) && Replayed([]) == Empty
  {
    assert forall rs: seq<Receipt> :: [] + rs == rs;
  }
}
