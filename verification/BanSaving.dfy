/** Saving bans while they change: the dirty mark, and snapshots taken shard by shard (persist.go). */
module BanSaving {
  import opened Results
  import opened Addresses
  import opened BanTable
  import opened BanRestore

  /** A save under way: the shards before `next` have been copied, and the ranges once they are Some. */
  datatype Flush = Idle | Running(started: nat, next: nat, clients: map<Prefix, Saved>, ranges: Option<map<Prefix, Saved>>)

  /** pending counts the operations that have changed a ban but not yet set the dirty mark. */
  datatype World = World(now: nat, t: Table, file: Snapshot, dirty: bool, pending: nat, flush: Flush)

  datatype Step =
    | Tick(elapsed: nat)
    | Operate(op: Op)
    | Mark
    | StartFlush
    | CopyShard
    | CopyRanges
    | WriteFile(ok: bool)

  /** The operations whose callers mark the registry dirty afterwards: a new automatic ban, every ban an
    * administrator sets, and every ban lifted. */
  predicate Marks(t: Table, op: Op)
    requires |t.shards| == SHARDS
  {
    Enabled(t, op) &&
    match op
    case Unban(ip) => Find(t, KeyOf(ip)).Some?
    case BanRange(q, _, _) => q in t.ranges || |t.ranges| < MAX_RANGES
    case UnbanRange(q) => q in t.ranges
    case Sweep(_, _) => false
    case SweepRanges(_) => false
    case BanFor(ip, _, now, p, victim) => Find(Room(t, KeyOf(ip), now, p, victim), KeyOf(ip)).Some?
    case _ =>
      var e := Find(Room(t, KeyOf(op.ip), op.now, op.p, op.victim), KeyOf(op.ip));
      e.Some? && Changed(op, e.value).offenses > e.value.offenses
  }

  /** Operations read the clock before they take their lock. */
  predicate Timely(op: Op, now: nat) {
    op.Unban? || op.UnbanRange? || op.now <= now
  }

  function Next(w: World, s: Step): (w': World)
    requires |w.t.shards| == SHARDS
    ensures |w'.t.shards| == SHARDS
  {
    match s
    case Tick(elapsed) => w.(now := w.now + elapsed)
    case Operate(op) =>
      if !Timely(op, w.now) then w
      else w.(t := Apply(w.t, op), pending := w.pending + if Marks(w.t, op) then 1 else 0)
    case Mark => if w.pending == 0 then w else w.(pending := w.pending - 1, dirty := true)
    case StartFlush =>
      if !w.flush.Idle? || !w.dirty then w else w.(dirty := false, flush := Running(w.now, 0, map[], None))
    case CopyShard =>
      if !w.flush.Running? || w.flush.next >= SHARDS then w
      else w.(flush := w.flush.(next := w.flush.next + 1,
                                clients := w.flush.clients + SavedShard(w.t.shards[w.flush.next])))
    case CopyRanges =>
      if !w.flush.Running? || w.flush.next < SHARDS || w.flush.ranges.Some? then w
      else w.(flush := w.flush.(ranges := Some(SavedRanges(w.t.ranges, w.flush.started))))
    case WriteFile(ok) =>
      if !w.flush.Running? || w.flush.ranges.None? then w
      else if ok then w.(file := Snapshot(w.flush.clients, w.flush.ranges.value), flush := Idle)
      else w.(dirty := true, flush := Idle)
  }

  function Run(w: World, steps: seq<Step>): (w': World)
    requires |w.t.shards| == SHARDS
    ensures |w'.t.shards| == SHARDS
    decreases |steps|
  {
    if steps == [] then w else Run(Next(w, steps[0]), steps[1..])
  }

  // ----- the invariant -----

  /** No change is waiting to be marked and none marked is waiting to be saved. */
  predicate Quiet(w: World) { !w.dirty && w.pending == 0 }

  /** A client's end in the table and in the file: the same, or at least none in force that the file lacks. */
  predicate Agrees(inTable: int, inFile: int, exact: bool) {
    if exact then inTable == inFile else inTable != 0 ==> inTable == inFile
  }

  ghost predicate ClientsAgree(t: Table, clients: map<Prefix, Saved>, now: nat, exact: bool)
    requires |t.shards| == SHARDS
  {
    forall k :: KeyOf(k) == k ==> Agrees(Live(EndOf(t, k), now), Live(FileEnd(clients, k), now), exact)
  }

  ghost predicate ClientsMatch(t: Table, clients: map<Prefix, Saved>, upTo: nat, now: nat)
    requires |t.shards| == SHARDS
  {
    forall k :: KeyOf(k) == k && Shard(k) < upTo ==> Live(EndOf(t, k), now) == Live(FileEnd(clients, k), now)
  }

  ghost predicate RangesMatch(t: Table, ranges: map<Prefix, Saved>, now: nat) {
    forall q :: Live(RangeEnd(t, q), now) == Live(FileRangeEnd(ranges, q), now)
  }

  /** The copied clients are keys' prefixes from the shards done. */
  ghost predicate CopyOk(clients: map<Prefix, Saved>, upTo: nat) {
    forall q :: q in clients ==> KeyOf(q.addr) == q.addr && q == KeyPrefix(q.addr) && Shard(q.addr) < upTo
  }

  ghost predicate BlocksOk(ranges: map<Prefix, Saved>) {
    |ranges| <= MAX_RANGES && forall q :: q in ranges ==> IsRange(q)
  }

  ghost predicate FlushOk(w: World)
    requires |w.t.shards| == SHARDS
  {
    w.flush.Running? ==>
      && w.flush.started <= w.now && w.flush.next <= SHARDS && CopyOk(w.flush.clients, w.flush.next)
      && (w.flush.ranges.Some? ==> w.flush.next == SHARDS && BlocksOk(w.flush.ranges.value))
      && (Quiet(w) ==>
            && ClientsMatch(w.t, w.flush.clients, w.flush.next, w.now)
            && (w.flush.ranges.Some? ==> RangesMatch(w.t, w.flush.ranges.value, w.now)))
  }

  ghost predicate FileMatches(w: World, exact: bool)
    requires |w.t.shards| == SHARDS
  {
    && CopyOk(w.file.clients, SHARDS) && BlocksOk(w.file.ranges)
    && (Quiet(w) && w.flush.Idle? ==>
          ClientsAgree(w.t, w.file.clients, w.now, exact) && RangesMatch(w.t, w.file.ranges, w.now))
  }

  /** exact while the table began as all its file holds. */
  ghost predicate Inv(w: World, exact: bool) {
    BanTable.Valid(w.t) && FlushOk(w) && FileMatches(w, exact)
  }

  // ----- an unmarked operation changes no ban in force -----

  lemma UnmarkedTouch(t: Table, op: Op, k: Addr)
    requires BanTable.Valid(t) && Touches(op) && Enabled(t, op) && !Marks(t, op)
    requires Find(t, k).None? || Find(t, k).value.until <= op.now
    ensures EndOf(Touch(t, op), k) <= op.now
  {
    hide Shard, Total, IsRange, KeyOf, Trackable, Fair, ShardOk, Put;
    var j := KeyOf(op.ip);
    var t' := Room(t, j, op.now, op.p, op.victim);
    RoomForgets(t, j, op.now, op.p, op.victim, k);
    if Find(t', j).Some? {
      var e := Find(t', j).value;
      PutFinds(t', j, ShardOf(t', j)[j := Changed(op, e)], t'.count, k);
      if k == j {
        UnmarkedEntry(op, e);
      }
    }
  }

  lemma UnmarkedEntry(op: Op, e: Entry)
    requires Touches(op) && !op.BanFor? && Changed(op, e).offenses <= e.offenses
    ensures Changed(op, e).until == e.until
  {
  }

  /** Making room brings in no ban. */
  lemma RoomForgets(t: Table, j: Addr, now: nat, p: Params, victim: Option<Addr>, k: Addr)
    requires |t.shards| == SHARDS && (Find(t, k).None? || Find(t, k).value.until <= now)
    ensures EndOf(Room(t, j, now, p, victim), k) <= now
  {
    hide Shard, Put;
    var m := ShardOf(t, j);
    if j !in m {
      PutFinds(t, j, m[j := NewEntry(now)], t.count + 1, k);
      if victim.Some? {
        PutFinds(t, j, (m - {victim.value})[j := NewEntry(now)], t.count, k);
      }
    }
  }

  lemma UnmarkedKeepsClient(t: Table, op: Op, now: nat, k: Addr)
    requires BanTable.Valid(t) && !Marks(t, op) && Timely(op, now)
    ensures Live(EndOf(Apply(t, op), k), now) == Live(EndOf(t, k), now)
  {
    hide Shard, Total, IsRange, KeyOf, Trackable, Fair, ShardOk, Touch, Room, Put, Changed;
    if Enabled(t, op) {
      if Touches(op) {
        UnmarkedTouchKeeps(t, op, now, k);
      } else if op.Sweep? {
        SweepKeeps(t, op.now, op.p, now, k);
      }
    }
  }

  lemma SweepKeeps(t: Table, at: nat, p: Params, now: nat, k: Addr)
    requires |t.shards| == SHARDS && at <= now
    ensures Live(EndOf(Apply(t, Sweep(at, p)), k), now) == Live(EndOf(t, k), now)
  {
    hide Shard, Total;
  }

  lemma UnmarkedTouchKeeps(t: Table, op: Op, now: nat, k: Addr)
    requires BanTable.Valid(t) && Touches(op) && Enabled(t, op) && !Marks(t, op) && op.now <= now
    ensures Live(EndOf(Touch(t, op), k), now) == Live(EndOf(t, k), now)
  {
    hide Shard, Total, IsRange, KeyOf, Trackable, Fair, ShardOk, Touch, Room, Put;
    if Find(t, k).Some? && Find(t, k).value.until > op.now {
      TouchFinds(t, op, k);
      RoomFinds(t, KeyOf(op.ip), op.now, op.p, op.victim, k);
      if k == KeyOf(op.ip) {
        UnmarkedActive(op, Find(t, k).value);
      }
    } else {
      UnmarkedTouch(t, op, k);
    }
  }

  lemma UnmarkedActive(op: Op, e: Entry)
    requires Touches(op) && !op.BanFor? && e.until > op.now
    ensures Changed(op, e).until == e.until
  {
  }

  lemma UnmarkedKeepsRange(t: Table, op: Op, now: nat, q: Prefix)
    requires BanTable.Valid(t) && !Marks(t, op) && Timely(op, now)
    ensures Live(RangeEnd(Apply(t, op), q), now) == Live(RangeEnd(t, q), now)
  {
    hide Shard, Total, IsRange, KeyOf, Trackable, Fair, ShardOk, Touch, Room, Put, Changed;
  }

  // ----- every step keeps the invariant -----

  lemma OperateKeeps(w: World, op: Op, exact: bool)
    requires Inv(w, exact)
    ensures Inv(Next(w, Operate(op)), exact)
  {
    hide Shard, Total, IsRange, KeyOf, Apply, Marks, ShardOk, Timely, CopyOk, BlocksOk, Live;
    ApplyValid(w.t, op);
    if Timely(op, w.now) && !Marks(w.t, op) {
      forall k ensures Live(EndOf(Apply(w.t, op), k), w.now) == Live(EndOf(w.t, k), w.now) {
        UnmarkedKeepsClient(w.t, op, w.now, k);
      }
      forall q ensures Live(RangeEnd(Apply(w.t, op), q), w.now) == Live(RangeEnd(w.t, q), w.now) {
        UnmarkedKeepsRange(w.t, op, w.now, q);
      }
    }
  }

  lemma CopyShardKeeps(w: World, exact: bool)
    requires Inv(w, exact)
    ensures Inv(Next(w, CopyShard), exact)
  {
    hide Shard, Total, IsRange, KeyOf, BlocksOk, RangesMatch, KeyPrefix, SavedShard;
    if w.flush.Running? && w.flush.next < SHARDS {
      var i := w.flush.next;
      var before, m := w.flush.clients, w.t.shards[i];
      var after := before + SavedShard(m);
      assert ShardOk(m, i);
      forall q | q in after ensures KeyOf(q.addr) == q.addr && q == KeyPrefix(q.addr) && Shard(q.addr) < i + 1 {
        SavedShardHas(m, q);
      }
      if Quiet(w) {
        forall k | KeyOf(k) == k && Shard(k) < i + 1
          ensures Live(EndOf(w.t, k), w.now) == Live(FileEnd(after, k), w.now)
        {
          OneCopied(w.t, before, i, w.now, k);
        }
      }
    }
  }

  lemma PrefixOfKey(k: Addr)
    ensures KeyPrefix(k).addr == k
  {
  }

  lemma OneCopied(t: Table, before: map<Prefix, Saved>, i: nat, now: nat, k: Addr)
    requires BanTable.Valid(t) && i < SHARDS && CopyOk(before, i) && ClientsMatch(t, before, i, now)
    requires KeyOf(k) == k && Shard(k) < i + 1
    ensures Live(EndOf(t, k), now) == Live(FileEnd(before + SavedShard(t.shards[i]), k), now)
  {
    hide Shard, Total, IsRange, KeyOf, KeyPrefix, SavedShard;
    PrefixOfKey(k);
    SavedShardHas(t.shards[i], KeyPrefix(k));
    EntryOkAt(t, k);
    assert ShardOk(t.shards[i], i);
  }

  lemma CopyRangesKeeps(w: World, exact: bool)
    requires Inv(w, exact)
    ensures Inv(Next(w, CopyRanges), exact)
  {
    hide Shard, Total, IsRange, KeyOf, ShardOk, CopyOk, ClientsMatch;
    if w.flush.Running? {
      SubsetSmaller(SavedRanges(w.t.ranges, w.flush.started).Keys, w.t.ranges.Keys);
    }
  }

  lemma OtherKeeps(w: World, s: Step, exact: bool)
    requires Inv(w, exact) && !s.Operate? && !s.CopyShard? && !s.CopyRanges?
    ensures Inv(Next(w, s), exact)
  {
    hide Shard, Total, IsRange, KeyOf, ShardOk, BlocksOk, BanTable.Valid;
  }

  lemma NextKeeps(w: World, s: Step, exact: bool)
    requires Inv(w, exact)
    ensures Inv(Next(w, s), exact)
  {
    hide Inv, Next;
    match s
    case Operate(op) => OperateKeeps(w, op, exact);
    case CopyShard => CopyShardKeeps(w, exact);
    case CopyRanges => CopyRangesKeeps(w, exact);
    case _ => OtherKeeps(w, s, exact);
  }

  lemma {:induction false} RunKeeps(w: World, steps: seq<Step>, exact: bool)
    requires Inv(w, exact)
    ensures Inv(Run(w, steps), exact)
    decreases |steps|
  {
    hide Next, FlushOk, FileMatches;
    if steps != [] {
      NextKeeps(w, steps[0], exact);
      RunKeeps(Next(w, steps[0]), steps[1..], exact);
    }
  }

  /** The bans in force are the file's: all of them when exact, otherwise none that the file lacks. */
  ghost predicate Recorded(t: Table, snap: Snapshot, now: nat, exact: bool)
    requires |t.shards| == SHARDS
  {
    if exact then Matches(t, snap, now) else Covers(t, snap, now)
  }

  /** A registry that has just started on its file. */
  ghost predicate Started(w: World, exact: bool) {
    && BanTable.Valid(w.t) && FileOk(w.file) && Recorded(w.t, w.file, w.now, exact)
    && !w.dirty && w.pending == 0 && w.flush.Idle?
  }

  lemma StartedInv(w: World, exact: bool)
    requires Started(w, exact)
    ensures Inv(w, exact)
  {
    hide Shard, Total, IsRange, KeyOf, ShardOk;
  }

  function Fresh(t: Table, file: Snapshot, now: nat): World {
    World(now, t, file, false, 0, Idle)
  }

  /** Without a file a registry starts empty. */
  lemma EmptyStarted(now: nat)
    ensures Started(Fresh(EMPTY, Snapshot(map[], map[]), now), true)
  {
    hide Shard, EmptyShards, Total, IsRange, KeyOf;
    EmptyValid();
    assert forall k :: EndOf(EMPTY, k) == 0;
  }

  /** A registry loaded from its file has started: with no ban the file lacks, whatever the parameters skip and
    * whoever a full table evicts; and with all of the file's when everyone fits and no one is newly exempt. */
  lemma LoadedStarted(snap: Snapshot, cs: seq<Prefix>, victims: seq<Option<Addr>>, rs: seq<Prefix>, now: nat, p: Params)
    requires FileOk(snap) && ListsKeys(cs, snap.clients) && ListsKeys(rs, snap.ranges) && |victims| == |cs|
    requires FairAll(EMPTY, snap.clients, cs, victims, now, p)
    ensures Started(Fresh(Loaded(snap, cs, victims, rs, now, p), snap, now), false)
    ensures Fits(snap, p) && p.max >= 0 && victims == NoVictims(|cs|) ==>
              Started(Fresh(Loaded(snap, cs, victims, rs, now, p), snap, now), true)
  {
    hide BanTable.Valid, FileOk, Matches, Covers, FairAll, Loaded, Fits;
    LoadedValid(snap, cs, victims, rs, now, p);
    LoadedCovers(snap, cs, victims, rs, now, p);
    if Fits(snap, p) && p.max >= 0 && victims == NoVictims(|cs|) {
      RestoredMatches(snap, cs, rs, now, p);
    }
  }

  /** Whenever no operation is between its change and its mark, nothing is marked and no save is running, every ban
    * in force is in the saved file, with the same end; and nothing else is, if that held at the start. */
  lemma SavingLosesNothing(w: World, steps: seq<Step>, exact: bool)
    requires Started(w, exact)
    ensures var v := Run(w, steps); Quiet(v) && v.flush.Idle? ==> Recorded(v.t, v.file, v.now, exact)
  {
    hide Shard, Total, IsRange, KeyOf, ShardOk, Next, Run, KeyPrefix;
    StartedInv(w, exact);
    RunKeeps(w, steps, exact);
  }

  lemma FileStaysOk(w: World, exact: bool)
    requires Inv(w, exact)
    ensures FileOk(w.file)
  {
    hide Shard, Total, IsRange, KeyOf, ShardOk;
  }

  /** After a crash at any moment whatever the next process loads has started in turn, so all this holds over any
    * number of crashes and restarts. */
  lemma RestartStarts(w: World, steps: seq<Step>, exact: bool, cs: seq<Prefix>, victims: seq<Option<Addr>>,
                      rs: seq<Prefix>, later: nat, p: Params)
    requires Started(w, exact)
    requires var file := Run(w, steps).file;
             && ListsKeys(cs, file.clients) && ListsKeys(rs, file.ranges) && |victims| == |cs|
             && FairAll(EMPTY, file.clients, cs, victims, later, p)
    ensures var file := Run(w, steps).file;
            && Started(Fresh(Loaded(file, cs, victims, rs, later, p), file, later), false)
            && (Fits(file, p) && p.max >= 0 && victims == NoVictims(|cs|) ==>
                  Started(Fresh(Loaded(file, cs, victims, rs, later, p), file, later), true))
  {
    hide ShardOk, Total, IsRange, Recorded, Inv, Next, Run, Loaded, FairAll, FileOk, Fits, NoVictims;
    StartedInv(w, exact);
    RunKeeps(w, steps, exact);
    FileStaysOk(Run(w, steps), exact);
    LoadedStarted(Run(w, steps).file, cs, victims, rs, later, p);
  }

  /** A crash at a quiet moment, and a restart from the file, change no answer to "is this address banned". */
  lemma CrashInvisible(w: World, steps: seq<Step>, cs: seq<Prefix>, rs: seq<Prefix>, later: nat, p: Params, ip: Addr, at: nat)
    requires Started(w, true) && Quiet(Run(w, steps)) && Run(w, steps).flush.Idle?
    requires var v := Run(w, steps);
             && ListsKeys(cs, v.file.clients) && ListsKeys(rs, v.file.ranges)
             && Fits(v.file, p) && p.max >= 0 && v.now <= later <= at < BAN_FOREVER
    ensures var v := Run(w, steps);
            BannedLeft(Restored(v.file, cs, rs, later, p), p, ip, at) == BannedLeft(v.t, p, ip, at)
  {
    hide Shard, Total, IsRange, KeyOf, ShardOk, Next, Live, Run, Restored, BannedLeft, Fits, KeyPrefix, Matches, Inv;
    StartedInv(w, true);
    RunKeeps(w, steps, true);
    SavingLosesNothing(w, steps, true);
    var v := Run(w, steps);
    FileStaysOk(v, true);
    RestartInvisible(v.t, v.file, cs, rs, v.now, later, p, ip, at);
  }
}
