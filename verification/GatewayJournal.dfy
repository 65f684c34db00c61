/** The gateway's durable settlement log (internal/gateway/journal.go). */
module GatewayJournal {
  import opened Results
  import opened DurableLog
  import opened PaymentTypes

  datatype Record = Record(id: Auth, terms: Terms, payer: string, state: PayState, response: Option<Response>)

  datatype Journal = Journal(records: map<Auth, Record>, bad: bool)

  predicate SettledIn(records: map<Auth, Record>, id: Auth) {
    id in records && records[id].state.Settled?
  }

  // ----- what the file means -----

  /** The latest line for an ID wins. */
  function Latest(lines: seq<Record>): map<Auth, Record> {
    if lines == [] then map[]
    else var r := lines[|lines| - 1]; Latest(lines[..|lines| - 1])[r.id := r]
  }

  /** No line takes a settled record back. */
  predicate Admitted(lines: seq<Record>) {
    lines == [] ||
    var front, r := lines[..|lines| - 1], lines[|lines| - 1];
    Admitted(front) && (SettledIn(Latest(front), r.id) ==> r.state.Settled?)
  }

  /** The longest line, with its line break, that opening reads. */
  const LINE_MAX := 0x10_0000

  function Opened(f: File<Record>): Option<Journal> {
    if f.torn || !Fits(f.codec, f.lines, LINE_MAX) || !Admitted(f.lines) then None
    else Some(Journal(Latest(f.lines), false))
  }

  /** What opening makes of a file's bytes. */
  function Reopened(c: Codec<Record>, bytes: string): Option<Journal> {
    match Decoded(c, bytes, LINE_MAX)
    case None => None
    case Some(rs) => if Admitted(rs) then Some(Journal(Latest(rs), false)) else None
  }

  lemma ReopenedHolds(bytes: string, f: File<Record>)
    requires Lawful(f.codec) && Holds(bytes, f)
    ensures Reopened(f.codec, bytes) == Opened(f)
  {
    hide Decoded, Admitted, Latest, Fits, Holds;
    ReopenHolds(bytes, f, LINE_MAX);
  }

  lemma LatestSnoc(lines: seq<Record>, r: Record)
    ensures Latest(lines + [r]) == Latest(lines)[r.id := r]
    ensures Admitted(lines + [r]) <==> Admitted(lines) && (SettledIn(Latest(lines), r.id) ==> r.state.Settled?)
  {
    assert (lines + [r])[..|lines|] == lines;
  }

  lemma {:induction false} LatestNamed(lines: seq<Record>)
    ensures forall a :: a in Latest(lines) ==> Latest(lines)[a].id == a
  {
    if lines != [] {
      LatestNamed(lines[..|lines| - 1]);
    }
  }

  lemma {:induction false} AdmittedPrefix(a: seq<Record>, b: seq<Record>)
    requires Admitted(a + b)
    ensures Admitted(a)
  {
    if b == [] {
      assert a + b == a;
    } else {
      assert (a + b)[..|a + b| - 1] == a + b[..|b| - 1];
      AdmittedPrefix(a, b[..|b| - 1]);
    }
  }

  /** The record of an ID is the last line that has it. */
  lemma {:induction false} LatestIs(lines: seq<Record>, i: nat)
    requires i < |lines| && forall j :: i < j < |lines| ==> lines[j].id != lines[i].id
    ensures lines[i].id in Latest(lines) && Latest(lines)[lines[i].id] == lines[i]
  {
    if i < |lines| - 1 {
      LatestIs(lines[..|lines| - 1], i);
    }
  }

  lemma {:induction false} LatestLine(lines: seq<Record>, id: Auth) returns (i: nat)
    requires id in Latest(lines)
    ensures i < |lines| && lines[i].id == id && forall j :: i < j < |lines| ==> lines[j].id != id
  {
    i := |lines| - 1;
    if lines[i].id != id {
      i := LatestLine(lines[..|lines| - 1], id);
    }
  }

  /** A file is admitted exactly when no line takes back a settled one before it. */
  lemma {:induction false} AdmittedExactly(lines: seq<Record>)
    ensures Admitted(lines) <==>
              forall i, j :: 0 <= i < j < |lines| && lines[i].id == lines[j].id && lines[i].state.Settled? ==>
                lines[j].state.Settled?
  {
    hide Latest;
    if lines != [] {
      var n := |lines| - 1;
      var front, r := lines[..n], lines[n];
      AdmittedExactly(front);
      if r.id in Latest(front) {
        var k := LatestLine(front, r.id);
        LatestIs(front, k);
        assert lines[k].id == r.id;
      }
      forall i | 0 <= i < n && front[i].id == r.id ensures r.id in Latest(front) {
        Named(front, i);
      }
    }
  }

  lemma {:induction false} Named(lines: seq<Record>, i: nat)
    requires i < |lines|
    ensures lines[i].id in Latest(lines)
  {
    if i < |lines| - 1 {
      Named(lines[..|lines| - 1], i);
    }
  }

  // ----- writing -----

  predicate Refuses(j: Journal, id: Auth) {
    j.bad || SettledIn(j.records, id)
  }

  function WriteRecord(j: Journal, r: Record, fate: Fate): Journal {
    if Refuses(j, r.id) then j
    else if fate.Synced? then j.(records := j.records[r.id := r])
    else j.(bad := true)
  }

  function FileAfter(j: Journal, f: File<Record>, r: Record, fate: Fate): File<Record> {
    if Refuses(j, r.id) then f else Append(f, r, fate)
  }

  predicate Acknowledges(j: Journal, r: Record, fate: Fate) {
    !Refuses(j, r.id) && fate.Synced?
  }

  /** A journal and its file agree: until a write fails, memory is the file; afterwards the file may hold
    * the one record whose write failed, whole or in part. */
  ghost predicate InStep(j: Journal, f: File<Record>) {
    && Admitted(f.lines)
    && (!j.bad ==> !f.torn && j.records == Latest(f.lines))
  }

  lemma WriteStaysInStep(j: Journal, f: File<Record>, r: Record, fate: Fate)
    requires InStep(j, f)
    ensures InStep(WriteRecord(j, r, fate), FileAfter(j, f, r, fate))
  {
    LatestSnoc(f.lines, r);
  }

  function BytesAfter(j: Journal, c: Codec<Record>, bytes: string, r: Record, io: Io): string {
    if Refuses(j, r.id) then bytes else Appended(c, bytes, r, io)
  }

  lemma WriteHolds(j: Journal, f: File<Record>, bytes: string, r: Record, io: Io)
    requires Lawful(f.codec) && Holds(bytes, f) && InStep(j, f)
    ensures Holds(BytesAfter(j, f.codec, bytes, r, io), FileAfter(j, f, r, LineFate(f.codec, r, io)))
  {
    hide Holds, Lawful, Appended, LineFate;
    if !Refuses(j, r.id) {
      AppendHolds(bytes, f, r, io);
    }
  }

  /** One session of a journal: the records written, each with what the operating system did with its line.
    * It leaves the journal, the file and the file's bytes. */
  function Session(j: Journal, f: File<Record>, bytes: string, writes: seq<(Record, Io)>): (Journal, File<Record>, string)
    decreases |writes|
  {
    if writes == [] then (j, f, bytes)
    else
      var (r, io) := writes[0];
      var fate := LineFate(f.codec, r, io);
      Session(WriteRecord(j, r, fate), FileAfter(j, f, r, fate), BytesAfter(j, f.codec, bytes, r, io), writes[1..])
  }

  function WrittenIn(writes: seq<(Record, Io)>): set<Record> {
    set w | w in writes :: w.0
  }

  /** Any failed write suspends the journal: nothing later reaches the file. */
  lemma {:induction false} BadStops(j: Journal, f: File<Record>, bytes: string, writes: seq<(Record, Io)>)
    requires j.bad
    ensures Session(j, f, bytes, writes) == (j, f, bytes)
  {
    hide LineFate, Appended;
    if writes != [] {
      BadStops(j, f, bytes, writes[1..]);
    }
  }

  /** The session's bytes are its file, and the file holds the acknowledged records plus at most the one whose
    * write failed last. */
  lemma {:induction false} SessionHolds(j: Journal, f: File<Record>, bytes: string, writes: seq<(Record, Io)>)
    requires Lawful(f.codec) && Holds(bytes, f)
    requires InStep(j, f) && !f.torn && (j.bad ==> j.records == Latest(f.lines))
    ensures var (j', f', bytes') := Session(j, f, bytes, writes);
            && f'.codec == f.codec && Holds(bytes', f') && Admitted(f'.lines)
            && (!f'.torn ==>
                  || Latest(f'.lines) == j'.records
                  || (j'.bad && exists r: Record ::
                        r in WrittenIn(writes) && !SettledIn(j'.records, r.id) && Latest(f'.lines) == j'.records[r.id := r]))
    decreases |writes|
  {
    hide Holds, Lawful, Appended, LineFate, BytesAfter;
    if writes != [] {
      var (r, io) := writes[0];
      var fate := LineFate(f.codec, r, io);
      LatestSnoc(f.lines, r);
      WriteHolds(j, f, bytes, r, io);
      var j1, f1, bytes1 := WriteRecord(j, r, fate), FileAfter(j, f, r, fate), BytesAfter(j, f.codec, bytes, r, io);
      if j.bad || SettledIn(j.records, r.id) || fate.Synced? || fate.Lost? {
        SessionHolds(j1, f1, bytes1, writes[1..]);
        assert forall x :: x in WrittenIn(writes[1..]) ==> x in WrittenIn(writes);
      } else {
        BadStops(j1, f1, bytes1, writes[1..]);
        assert r in WrittenIn(writes);
      }
    }
  }

  /** Reopening the bytes any session left refuses exactly a torn file or one with an overlong line; otherwise it
    * rebuilds the acknowledged records, plus at most the one whose write failed last. */
  lemma ReopenRebuilds(j: Journal, f: File<Record>, bytes: string, writes: seq<(Record, Io)>)
    requires Lawful(f.codec) && Holds(bytes, f)
    requires InStep(j, f) && !f.torn && (j.bad ==> j.records == Latest(f.lines))
    ensures var (j', f', bytes') := Session(j, f, bytes, writes);
            var next := Reopened(f.codec, bytes');
            && (next == None <==> f'.torn || exists r :: r in f'.lines && !Short(f.codec, r, LINE_MAX))
            && (next.Some? ==>
                  || next == Some(j'.(bad := false))
                  || (j'.bad && exists r: Record ::
                        r in WrittenIn(writes) && !SettledIn(j'.records, r.id)
                        && next == Some(Journal(j'.records[r.id := r], false))))
  {
    hide Holds, Lawful, Decoded, Admitted, Latest, Session, Reopened, Short;
    var (j', f', bytes') := Session(j, f, bytes, writes);
    SessionHolds(j, f, bytes, writes);
    ReopenedHolds(bytes', f');
  }

  /** An acknowledged record lets the journal be reopened exactly when its line is within the reader's limit. */
  lemma AcknowledgedReopens(j: Journal, f: File<Record>, bytes: string, r: Record)
    requires Lawful(f.codec) && Holds(bytes, f) && InStep(j, f) && Fits(f.codec, f.lines, LINE_MAX)
    requires Acknowledges(j, r, LineFate(f.codec, r, Durable))
    ensures var next := Reopened(f.codec, BytesAfter(j, f.codec, bytes, r, Durable));
            && (next.Some? <==> Short(f.codec, r, LINE_MAX))
            && (next.Some? ==> next == Some(WriteRecord(j, r, Synced)))
  {
    hide Holds, Lawful, Appended, Fits, Short, Reopened;
    WriteHolds(j, f, bytes, r, Durable);
    ReopenedHolds(BytesAfter(j, f.codec, bytes, r, Durable), FileAfter(j, f, r, Synced));
    LatestSnoc(f.lines, r);
    FitsSnoc(f.codec, f.lines, r, LINE_MAX);
  }

  // ----- the journal object -----

  class JournalFile {
    const codec: Codec<Record>
    const disk: Disk
    var records: map<Auth, Record>
    var bad: bool

    constructor (codec: Codec<Record>, disk: Disk, records: map<Auth, Record>)
      ensures this.codec == codec && this.disk == disk && State() == Journal(records, false)
    {
      this.codec, this.disk, this.records, this.bad := codec, disk, records, false;
    }

    ghost function State(): Journal
      reads this
    {
      Journal(records, bad)
    }

    ghost predicate Valid(f: File<Record>)
      reads this, disk
    {
      Lawful(codec) && f.codec == codec && Holds(disk.bytes, f) && InStep(State(), f)
    }

    /** Opening reads every line; it succeeds exactly when the text is complete lines that all decode, fit
      * the reader and never take back a settled record. */
    static method Open(codec: Codec<Record>, disk: Disk) returns (j: JournalFile?)
      ensures disk.bytes == old(disk.bytes)
      ensures j == null || (fresh(j) && j.codec == codec && j.disk == disk)
      ensures match Reopened(codec, disk.bytes)
              case None => j == null
              case Some(state) => j != null && j.State() == state
    {
      hide Decoded, Admitted, Latest, After;
      var rest := disk.bytes;
      var records: map<Auth, Record> := map[];
      ghost var done: seq<Record> := [];
      NothingRead(codec, disk.bytes, LINE_MAX);
      while rest != ""
        invariant Admitted(done) && records == Latest(done)
        invariant Decoded(codec, disk.bytes, LINE_MAX) == After(done, Decoded(codec, rest, LINE_MAX))
        decreases |rest|
      {
        var k := FirstBreak(rest);
        ReadLine(codec, done, rest, LINE_MAX);
        if k == |rest| || k + 1 > LINE_MAX {
          return null;
        }
        var line := codec.dec(TrimReturn(rest[..k]));
        if line.None? {
          return null;
        }
        var r := line.value;
        LatestSnoc(done, r);
        if r.id in records && records[r.id].state.Settled? && !r.state.Settled? {
          RegressRefused(done + [r], Decoded(codec, rest[k + 1..], LINE_MAX));
          return null;
        }
        records := records[r.id := r];
        done := done + [r];
        rest := rest[k + 1..];
      }
      AllRead(codec, done, LINE_MAX);
      j := new JournalFile(codec, disk, records);
    }

    method Get(id: Auth) returns (r: Option<Record>)
      ensures r == if id in records then Some(records[id]) else None
    {
      r := if id in records then Some(records[id]) else None;
    }

    method Write(r: Record, io: Io, ghost f: File<Record>) returns (ok: bool)
      requires Valid(f)
      modifies this, disk
      ensures var fate := LineFate(codec, r, io);
              && State() == WriteRecord(old(State()), r, fate)
              && Valid(FileAfter(old(State()), f, r, fate))
              && (ok <==> Acknowledges(old(State()), r, fate))
    {
      ghost var fate := LineFate(codec, r, io);
      WriteStaysInStep(State(), f, r, fate);
      if bad {
        return false;
      }
      if r.id in records && records[r.id].state.Settled? {
        return false;
      }
      AppendHolds(disk.bytes, f, r, io);
      var done := disk.Write(codec.enc(r) + "\n", io);
      if !done {
        bad := true;
        return false;
      }
      records := records[r.id := r];
      return true;
    }

    method Close()
      modifies this
      ensures State() == old(State()).(bad := true)
    {
      bad := true;
    }
  }

  // ----- reading a file line by line -----

  lemma NothingRead(c: Codec<Record>, text: string, max: nat)
    ensures Decoded(c, text, max) == After([], Decoded(c, text, max))
    ensures Admitted([]) && Latest([]) == map[]
  {
    assert forall rs: seq<Record> :: [] + rs == rs;
  }

  lemma RegressRefused(done: seq<Record>, more: Option<seq<Record>>)
    requires !Admitted(done)
    ensures After(done, more).Some? ==> !Admitted(After(done, more).value)
  {
    if more.Some? && Admitted(done + more.value) {
      AdmittedPrefix(done, more.value);
    }
  }
}
