/** What a strike does, and what an automatic ban takes: enough strikes inside one window, or a ban path
  * (strike, strikeKey and banNow in abuse.go). */
module BanStrikes {
  import opened Results
  import opened Addresses
  import opened BanTable

  /** The strikes that still count against k: none when the window they fell in is over. */
  function Counting(t: Table, k: Addr, now: nat, p: Params): int
    requires |t.shards| == SHARDS
  {
    match Find(t, k)
    case None => 0
    case Some(e) => if now - e.windowStart > p.window then 0 else e.strikes
  }

  function WindowStart(t: Table, k: Addr, now: nat, p: Params): int
    requires |t.shards| == SHARDS
  {
    match Find(t, k)
    case None => now
    case Some(e) => if now - e.windowStart > p.window then now else e.windowStart
  }

  function Offenses(t: Table, k: Addr): nat
    requires |t.shards| == SHARDS
  {
    if Find(t, k).Some? then Find(t, k).value.offenses else 0
  }

  predicate BannedAt(t: Table, k: Addr, now: nat)
    requires |t.shards| == SHARDS
  {
    Find(t, k).Some? && Find(t, k).value.until > now
  }

  /** There is an entry for the client, or room to make one. */
  predicate HasRoom(t: Table, op: Op)
    requires |t.shards| == SHARDS && Touches(op)
  {
    Find(t, KeyOf(op.ip)).Some? || t.count < op.p.maxEntries || op.victim.Some?
  }

  lemma RoomMade(t: Table, op: Op)
    requires |t.shards| == SHARDS && Touches(op) && HasRoom(t, op)
    ensures var k := KeyOf(op.ip);
            Find(Room(t, k, op.now, op.p, op.victim), k)
            == Some(if Find(t, k).Some? then Find(t, k).value else NewEntry(op.now))
  {
    hide Shard, Put, KeyOf;
    var k := KeyOf(op.ip);
    var m := ShardOf(t, k);
    if k !in m {
      PutFinds(t, k, m[k := NewEntry(op.now)], t.count + 1, k);
      if op.victim.Some? {
        PutFinds(t, k, (m - {op.victim.value})[k := NewEntry(op.now)], t.count, k);
      }
    }
  }

  lemma RoomExactly(t: Table, op: Op)
    requires |t.shards| == SHARDS && Touches(op)
    ensures var k := KeyOf(op.ip);
            Find(Room(t, k, op.now, op.p, op.victim), k)
            == if !HasRoom(t, op) then None
               else Some(if Find(t, k).Some? then Find(t, k).value else NewEntry(op.now))
  {
    hide Shard, Put, KeyOf;
    if HasRoom(t, op) {
      RoomMade(t, op);
    }
  }

  lemma TouchedIs(t: Table, op: Op)
    requires |t.shards| == SHARDS && Touches(op) && Enabled(t, op) && HasRoom(t, op)
    ensures var k := KeyOf(op.ip);
            Find(Apply(t, op), k)
            == Some(Changed(op, if Find(t, k).Some? then Find(t, k).value else NewEntry(op.now)))
  {
    hide Shard, Put, Room, Fair, Changed, KeyOf, Trackable;
    RoomMade(t, op);
    var k := KeyOf(op.ip);
    var t' := Room(t, k, op.now, op.p, op.victim);
    PutFinds(t', k, ShardOf(t', k)[k := Changed(op, ShardOf(t', k)[k])], t'.count, k);
  }

  /** Nothing happens to an exempt address, by a worthless strike, or without room. */
  lemma RefusedChangesNothing(t: Table, op: Op)
    requires |t.shards| == SHARDS && Touches(op)
    requires Exempt(op.p, Unmap(op.ip)) || (op.Strike? && op.weight <= 0) || !HasRoom(t, op)
    ensures Apply(t, op) == t
  {
    hide Shard, Put, Fair, Changed, KeyOf, Exempt;
  }

  /** A strike that leaves the client below the threshold adds to the count and bans no one: its end and its
    * offences stay, and the window starts anew only when it was over. */
  lemma BelowThreshold(t: Table, op: Op)
    requires |t.shards| == SHARDS && op.Strike? && Enabled(t, op) && HasRoom(t, op)
    requires var k := KeyOf(op.ip);
             !BannedAt(t, k, op.now) && Counting(t, k, op.now, op.p) + op.weight < op.p.threshold
    ensures var k := KeyOf(op.ip);
            Find(Apply(t, op), k)
            == Some(Entry(Counting(t, k, op.now, op.p) + op.weight, WindowStart(t, k, op.now, op.p), EndOf(t, k),
                          Offenses(t, k)))
  {
    hide Apply, Shard, KeyOf, Enabled, Escalated;
    TouchedIs(t, op);
  }

  /** One that reaches the threshold bans the client for the next cooldown in line and starts a window. */
  lemma AtThreshold(t: Table, op: Op)
    requires |t.shards| == SHARDS && op.Strike? && Enabled(t, op) && HasRoom(t, op)
    requires var k := KeyOf(op.ip);
             !BannedAt(t, k, op.now) && Counting(t, k, op.now, op.p) + op.weight >= op.p.threshold
    ensures var k := KeyOf(op.ip);
            Find(Apply(t, op), k)
            == Some(Entry(0, op.now, Wrap64(op.now + Cooldown(op.p, Offenses(t, k) + 1)), Offenses(t, k) + 1))
  {
    hide Apply, Shard, KeyOf, Enabled, CooldownFrom;
    TouchedIs(t, op);
  }

  /** A client already banned is left alone by strikes and ban paths. */
  lemma BannedIsLeftAlone(t: Table, op: Op)
    requires |t.shards| == SHARDS && (op.Strike? || op.BanNow?) && Enabled(t, op) && BannedAt(t, KeyOf(op.ip), op.now)
    ensures Find(Apply(t, op), KeyOf(op.ip)) == Find(t, KeyOf(op.ip))
  {
    hide Apply, Shard, KeyOf, Enabled;
    TouchedIs(t, op);
  }

  /** A ban path bans a client that is not, for the next cooldown in line. */
  lemma BanPathBans(t: Table, op: Op)
    requires |t.shards| == SHARDS && op.BanNow? && Enabled(t, op) && HasRoom(t, op) && !BannedAt(t, KeyOf(op.ip), op.now)
    ensures var k := KeyOf(op.ip);
            Find(Apply(t, op), k)
            == Some(Entry(0, op.now, Wrap64(op.now + Cooldown(op.p, Offenses(t, k) + 1)), Offenses(t, k) + 1))
  {
    hide Apply, Shard, KeyOf, Enabled, CooldownFrom;
    TouchedIs(t, op);
  }

  /** An administrator's ban ends when it was told to, or never; it is an offence unless a ban was running. */
  lemma OrderedBan(t: Table, op: Op)
    requires |t.shards| == SHARDS && op.BanFor? && Enabled(t, op) && HasRoom(t, op)
    ensures var k := KeyOf(op.ip);
            Find(Apply(t, op), k)
            == Some(Entry(0, op.now, if op.d <= 0 then BAN_FOREVER else Wrap64(op.now + op.d),
                          Offenses(t, k) + if BannedAt(t, k, op.now) then 0 else 1))
  {
    hide Apply, Shard, KeyOf, Enabled, Wrap64;
    TouchedIs(t, op);
  }

  /** The same for a block, as long as there is room for another. */
  lemma OrderedRangeBan(t: Table, q: Prefix, d: int, now: nat)
    requires |t.shards| == SHARDS && IsRange(q)
    ensures var t' := Apply(t, BanRange(q, d, now));
            && (forall r :: r != q ==> (r in t'.ranges <==> r in t.ranges) && (r in t.ranges ==> t'.ranges[r] == t.ranges[r]))
            && (q in t.ranges || |t.ranges| < MAX_RANGES ==>
                  q in t'.ranges && t'.ranges[q].until == (if d <= 0 then BAN_FOREVER else Wrap64(now + d))
                  && t'.ranges[q].offenses == (if q in t.ranges then t.ranges[q].offenses else 0)
                                              + if RangeEnd(t, q) > now then 0 else 1)
            && (q !in t.ranges && |t.ranges| >= MAX_RANGES ==> t' == t)
  {
    hide IsRange, Wrap64;
  }

  /** Lifting a block's ban forgets exactly that block, and a sweep exactly the blocks whose bans are over. */
  lemma RangesForgotten(t: Table, q: Prefix, now: nat, r: Prefix)
    requires |t.shards| == SHARDS
    ensures var lifted, swept := Apply(t, UnbanRange(q)).ranges, Apply(t, SweepRanges(now)).ranges;
            && (r in lifted <==> r in t.ranges && r != q) && (r in lifted ==> lifted[r] == t.ranges[r])
            && (r in swept <==> r in t.ranges && t.ranges[r].until > now) && (r in swept ==> swept[r] == t.ranges[r])
  {
    hide Shard, Total, Swept;
  }

  /** A sweep forgets exactly the clients that are not banned, whose window is over, and whose last ban, if they had
    * one, ended longer ago than the longest cooldown. */
  lemma SweepForgets(t: Table, now: nat, p: Params, k: Addr)
    requires |t.shards| == SHARDS
    ensures Find(Apply(t, Sweep(now, p)), k)
            == match Find(t, k)
               case None => None
               case Some(e) =>
                 if e.until <= now && now - e.windowStart > p.window && (e.offenses == 0 || now - e.until > p.max) then None
                 else Some(e)
  {
    hide Shard, Total;
  }

  // ----- over a run: what an automatic ban takes -----

  /** A strike that counts: k can be tracked and is not banned. */
  predicate Hits(t: Table, op: Op, k: Addr)
    requires |t.shards| == SHARDS
  {
    op.Strike? && KeyOf(op.ip) == k && Enabled(t, op) && !BannedAt(t, k, op.now)
  }

  /** The weight of the strikes that count in a run. */
  function NotedWeight(t: Table, ops: seq<Op>, k: Addr): int
    requires |t.shards| == SHARDS
    decreases |ops|
  {
    if ops == [] then 0
    else (if Hits(t, ops[0], k) then ops[0].weight else 0) + NotedWeight(Apply(t, ops[0]), ops[1..], k)
  }

  /** Each of them falls in the window that began at start, by the window length then in force. */
  predicate NotedWithin(t: Table, ops: seq<Op>, k: Addr, start: int)
    requires |t.shards| == SHARDS
    decreases |ops|
  {
    ops != [] ==>
      && (Hits(t, ops[0], k) ==> ops[0].now == start || ops[0].now - start <= ops[0].p.window)
      && NotedWithin(Apply(t, ops[0]), ops[1..], k, start)
  }

  predicate TouchesAt(op: Op, k: Addr, start: int) {
    Touches(op) && KeyOf(op.ip) == k && op.now == start
  }

  /** The window began with the table, or with an operation on k just before the strikes or first among them. */
  predicate Began(t: Table, before: seq<Op>, since: seq<Op>, k: Addr, start: int)
    requires |t.shards| == SHARDS
  {
    || (before == [] && Find(t, k).Some? && Find(t, k).value.windowStart == start)
    || (before != [] && TouchesAt(before[|before| - 1], k, start))
    || (since != [] && TouchesAt(since[0], k, start))
  }

  /** The run ends in strikes of at least this weight on k inside the one window that began at start. */
  ghost predicate InOneWindow(t: Table, ops: seq<Op>, k: Addr, start: int, weight: int)
    requires |t.shards| == SHARDS
  {
    exists before, since ::
      && ops == before + since && Began(t, before, since, k, start)
      && NotedWithin(Run(t, before), since, k, start) && NotedWeight(Run(t, before), since, k) >= weight
  }

  lemma {:induction false} RunSnoc(t: Table, ops: seq<Op>, op: Op)
    requires |t.shards| == SHARDS
    ensures Run(t, ops + [op]) == Apply(Run(t, ops), op)
    decreases |ops|
  {
    hide Apply;
    if ops == [] {
      assert ops + [op] == [op] && [op][1..] == [];
    } else {
      assert (ops + [op])[1..] == ops[1..] + [op];
      RunSnoc(Apply(t, ops[0]), ops[1..], op);
    }
  }

  lemma {:induction false} RunJoin(t: Table, a: seq<Op>, b: seq<Op>)
    requires |t.shards| == SHARDS
    ensures Run(t, a + b) == Run(Run(t, a), b)
    decreases |a|
  {
    hide Apply;
    if a == [] {
      assert a + b == b;
    } else {
      assert (a + b)[1..] == a[1..] + b;
      RunJoin(Apply(t, a[0]), a[1..], b);
    }
  }

  lemma {:induction false} NotedSnoc(t: Table, ops: seq<Op>, op: Op, k: Addr, start: int)
    requires |t.shards| == SHARDS
    ensures NotedWeight(t, ops + [op], k) == NotedWeight(t, ops, k) + if Hits(Run(t, ops), op, k) then op.weight else 0
    ensures NotedWithin(t, ops + [op], k, start) <==>
              NotedWithin(t, ops, k, start)
              && (Hits(Run(t, ops), op, k) ==> op.now == start || op.now - start <= op.p.window)
    decreases |ops|
  {
    hide Apply, Hits;
    if ops == [] {
      assert ops + [op] == [op] && [op][1..] == [];
    } else {
      assert (ops + [op])[1..] == ops[1..] + [op];
      NotedSnoc(Apply(t, ops[0]), ops[1..], op, k, start);
    }
  }

  /** One more operation keeps the window: it does not count, or counts inside it. */
  lemma WindowGoesOn(t: Table, ops: seq<Op>, op: Op, k: Addr, start: int, weight: int)
    requires |t.shards| == SHARDS && InOneWindow(t, ops, k, start, weight)
    requires Hits(Run(t, ops), op, k) ==> op.now - start <= op.p.window
    requires op.Strike? && Enabled(Run(t, ops), op) ==> op.weight >= 0
    ensures InOneWindow(t, ops + [op], k, start, weight + if Hits(Run(t, ops), op, k) then op.weight else 0)
  {
    hide Apply, Hits, Run, NotedWeight, NotedWithin, Enabled, Began;
    var before, since :|
      && ops == before + since && Began(t, before, since, k, start)
      && NotedWithin(Run(t, before), since, k, start) && NotedWeight(Run(t, before), since, k) >= weight;
    RunJoin(t, before, since);
    NotedSnoc(Run(t, before), since, op, k, start);
    assert ops + [op] == before + (since + [op]);
    BeganStays(t, before, since, op, k, start);
  }

  lemma BeganStays(t: Table, before: seq<Op>, since: seq<Op>, op: Op, k: Addr, start: int)
    requires |t.shards| == SHARDS && Began(t, before, since, k, start)
    ensures Began(t, before, since + [op], k, start)
  {
    hide Find, TouchesAt;
    assert since != [] ==> (since + [op])[0] == since[0];
  }

  /** An operation on k can begin a window, with its own strike or with none. */
  lemma WindowBegins(t: Table, ops: seq<Op>, op: Op, k: Addr)
    requires |t.shards| == SHARDS && Touches(op) && TouchesAt(op, k, op.now)
    ensures InOneWindow(t, ops + [op], k, op.now, 0)
    ensures Hits(Run(t, ops), op, k) ==> InOneWindow(t, ops + [op], k, op.now, op.weight)
  {
    hide Apply, Hits, Run;
    NothingNoted(Run(t, ops + [op]), k, op.now);
    assert ops + [op] == (ops + [op]) + [];
    assert Began(t, ops + [op], [], k, op.now);
    OneNoted(Run(t, ops), op, k);
    assert Began(t, ops, [op], k, op.now);
  }

  lemma NothingNoted(t: Table, k: Addr, start: int)
    requires |t.shards| == SHARDS
    ensures NotedWeight(t, [], k) == 0 && NotedWithin(t, [], k, start)
  {
  }

  lemma OneNoted(t: Table, op: Op, k: Addr)
    requires |t.shards| == SHARDS && Touches(op) && TouchesAt(op, k, op.now)
    ensures NotedWithin(t, [op], k, op.now)
    ensures Hits(t, op, k) ==> NotedWeight(t, [op], k) == op.weight
  {
    hide Apply, Hits;
    assert [op][1..] == [];
  }

  /** Only its own operations change a client's entry; others leave it or remove it. */
  lemma OnlyOwn(t: Table, op: Op, k: Addr)
    requires |t.shards| == SHARDS && !(Touches(op) && KeyOf(op.ip) == k && Enabled(t, op))
    ensures Find(Apply(t, op), k).None? || Find(Apply(t, op), k) == Find(t, k)
  {
    hide Shard, Fair, Trackable, Total, Changed, KeyOf, Put, Room, Touch;
    if Enabled(t, op) {
      if Touches(op) {
        TouchOther(t, op, k);
      } else if op.Unban? {
        var j := KeyOf(op.ip);
        PutFinds(t, j, ShardOf(t, j) - {j}, t.count - 1, k);
      } else if op.Sweep? {
        SweepForgets(t, op.now, op.p, k);
      }
    }
  }

  lemma TouchOther(t: Table, op: Op, k: Addr)
    requires |t.shards| == SHARDS && Touches(op) && KeyOf(op.ip) != k
    ensures Find(Touch(t, op), k).None? || Find(Touch(t, op), k) == Find(t, k)
  {
    hide Shard, Fair, Trackable, Changed, KeyOf, Put;
    var j := KeyOf(op.ip);
    var m := ShardOf(t, j);
    PutFinds(t, j, m[j := NewEntry(op.now)], t.count + 1, k);
    if op.victim.Some? {
      PutFinds(t, j, (m - {op.victim.value})[j := NewEntry(op.now)], t.count, k);
    }
    var t' := Room(t, j, op.now, op.p, op.victim);
    if j in ShardOf(t', j) {
      PutFinds(t', j, ShardOf(t', j)[j := Changed(op, ShardOf(t', j)[j])], t'.count, k);
    }
  }

  /** The strikes an entry counts were all struck inside its window. */
  ghost predicate Traced(t: Table, ops: seq<Op>, k: Addr)
    requires |t.shards| == SHARDS
  {
    Find(Run(t, ops), k).Some? ==>
      var e := Find(Run(t, ops), k).value;
      InOneWindow(t, ops, k, e.windowStart, e.strikes)
  }

  lemma StrikeTraced(t: Table, ops: seq<Op>, op: Op, k: Addr)
    requires |t.shards| == SHARDS && Traced(t, ops, k)
    requires op.Strike? && KeyOf(op.ip) == k && Enabled(Run(t, ops), op) && HasRoom(Run(t, ops), op)
    ensures Traced(t, ops + [op], k)
  {
    hide Apply, Run, KeyOf, Enabled, InOneWindow, HasRoom;
    var u := Run(t, ops);
    RunSnoc(t, ops, op);
    Positive(u, op);
    WindowBegins(t, ops, op, k);
    if BannedAt(u, k, op.now) {
      BannedIsLeftAlone(u, op);
      WindowGoesOn(t, ops, op, k, Find(u, k).value.windowStart, Find(u, k).value.strikes);
    } else if Counting(u, k, op.now, op.p) + op.weight >= op.p.threshold {
      AtThreshold(u, op);
    } else {
      BelowThreshold(u, op);
      if Find(u, k).Some? && op.now - Find(u, k).value.windowStart <= op.p.window {
        WindowGoesOn(t, ops, op, k, Find(u, k).value.windowStart, Find(u, k).value.strikes);
      }
    }
  }

  lemma Positive(t: Table, op: Op)
    requires |t.shards| == SHARDS
    ensures op.Strike? && Enabled(t, op) ==> op.weight > 0
  {
  }

  lemma StepTraced(t: Table, ops: seq<Op>, op: Op, k: Addr)
    requires |t.shards| == SHARDS && Traced(t, ops, k)
    ensures Traced(t, ops + [op], k)
  {
    hide Apply, Run, KeyOf, Enabled, InOneWindow, HasRoom, Exempt, EndOf, Changed;
    var u := Run(t, ops);
    RunSnoc(t, ops, op);
    Positive(u, op);
    if !(Touches(op) && KeyOf(op.ip) == k && Enabled(u, op)) {
      OnlyOwn(u, op, k);
      if Find(u, k).Some? {
        NotHit(u, op, k);
        WindowGoesOn(t, ops, op, k, Find(u, k).value.windowStart, Find(u, k).value.strikes);
      }
    } else if !HasRoom(u, op) {
      RefusedChangesNothing(u, op);
      NoRoomNoEntry(u, op);
    } else if op.Strike? {
      StrikeTraced(t, ops, op, k);
    } else {
      WindowBegins(t, ops, op, k);
      OtherTouchTraced(t, ops, op, k);
    }
  }

  lemma NotHit(t: Table, op: Op, k: Addr)
    requires |t.shards| == SHARDS && !(Touches(op) && KeyOf(op.ip) == k && Enabled(t, op))
    ensures !Hits(t, op, k)
  {
  }

  lemma NoRoomNoEntry(t: Table, op: Op)
    requires |t.shards| == SHARDS && Touches(op) && !HasRoom(t, op)
    ensures Find(t, KeyOf(op.ip)).None?
  {
  }

  lemma OtherTouchTraced(t: Table, ops: seq<Op>, op: Op, k: Addr)
    requires |t.shards| == SHARDS && Traced(t, ops, k) && (op.BanNow? || op.BanFor?)
    requires KeyOf(op.ip) == k && Enabled(Run(t, ops), op) && HasRoom(Run(t, ops), op)
    requires InOneWindow(t, ops + [op], k, op.now, 0)
    ensures Traced(t, ops + [op], k)
  {
    hide Apply, Run, KeyOf, Enabled, InOneWindow, HasRoom;
    var u := Run(t, ops);
    RunSnoc(t, ops, op);
    if op.BanFor? {
      OrderedBan(u, op);
    } else if BannedAt(u, k, op.now) {
      BannedIsLeftAlone(u, op);
      WindowGoesOn(t, ops, op, k, Find(u, k).value.windowStart, Find(u, k).value.strikes);
    } else {
      BanPathBans(u, op);
    }
  }

  lemma {:induction false} AlwaysTraced(t: Table, ops: seq<Op>, k: Addr)
    requires |t.shards| == SHARDS && (Find(t, k).Some? ==> Find(t, k).value.strikes <= 0)
    ensures Traced(t, ops, k)
    decreases |ops|
  {
    hide Apply, InOneWindow, KeyOf;
    if ops == [] {
      if Find(t, k).Some? {
        FirstWindow(t, k);
      }
    } else {
      var front, op := ops[..|ops| - 1], ops[|ops| - 1];
      AlwaysTraced(t, front, k);
      StepTraced(t, front, op, k);
      assert ops == front + [op];
    }
  }

  lemma FirstWindow(t: Table, k: Addr)
    requires |t.shards| == SHARDS && Find(t, k).Some? && Find(t, k).value.strikes <= 0
    ensures InOneWindow(t, [], k, Find(t, k).value.windowStart, Find(t, k).value.strikes) && Run(t, []) == t
  {
    NothingNoted(t, k, Find(t, k).value.windowStart);
    var none: seq<Op> := [];
    assert none == none + none;
    assert Began(t, [], [], k, Find(t, k).value.windowStart);
  }

  /** Over any run from a table without old strikes (an empty or a restored one): a client gets a new automatic ban
    * only by visiting a ban path, or when the strikes that count inside one window reach the threshold. */
  lemma AutomaticBanEarned(t: Table, ops: seq<Op>, op: Op, k: Addr)
    requires |t.shards| == SHARDS && (Find(t, k).Some? ==> Find(t, k).value.strikes <= 0)
    requires !op.BanFor? && Offenses(Apply(Run(t, ops), op), k) > Offenses(Run(t, ops), k)
    ensures Touches(op) && KeyOf(op.ip) == k && !BannedAt(Run(t, ops), k, op.now)
    ensures op.BanNow? || exists start :: InOneWindow(t, ops + [op], k, start, op.p.threshold)
  {
    hide Apply, Run, KeyOf, Enabled, InOneWindow, HasRoom, Exempt;
    var u := Run(t, ops);
    AlwaysTraced(t, ops, k);
    if !(Touches(op) && KeyOf(op.ip) == k && Enabled(u, op)) {
      OnlyOwn(u, op, k);
      assert false;
    }
    if !HasRoom(u, op) {
      RefusedChangesNothing(u, op);
      assert false;
    }
    if BannedAt(u, k, op.now) {
      BannedIsLeftAlone(u, op);
      assert false;
    }
    if op.Strike? {
      Positive(u, op);
      if Counting(u, k, op.now, op.p) + op.weight < op.p.threshold {
        BelowThreshold(u, op);
        assert false;
      }
      WindowBegins(t, ops, op, k);
      HitsIt(u, op, k);
      EarnedInWindow(t, ops, op, k);
    }
  }

  lemma HitsIt(t: Table, op: Op, k: Addr)
    requires |t.shards| == SHARDS && op.Strike? && KeyOf(op.ip) == k && Enabled(t, op) && !BannedAt(t, k, op.now)
    ensures Hits(t, op, k)
  {
  }

  lemma EarnedInWindow(t: Table, ops: seq<Op>, op: Op, k: Addr)
    requires |t.shards| == SHARDS && Traced(t, ops, k) && op.Strike? && Hits(Run(t, ops), op, k) && op.weight > 0
    requires Counting(Run(t, ops), k, op.now, op.p) + op.weight >= op.p.threshold
    requires InOneWindow(t, ops + [op], k, op.now, op.weight)
    ensures exists start :: InOneWindow(t, ops + [op], k, start, op.p.threshold)
  {
    hide Apply, Run, Hits, InOneWindow;
    var u := Run(t, ops);
    if Find(u, k).Some? && op.now - Find(u, k).value.windowStart <= op.p.window {
      var start := Find(u, k).value.windowStart;
      WindowGoesOn(t, ops, op, k, start, Find(u, k).value.strikes);
      WindowWeaker(t, ops + [op], k, start, Find(u, k).value.strikes + op.weight, op.p.threshold);
    } else {
      WindowWeaker(t, ops + [op], k, op.now, op.weight, op.p.threshold);
    }
  }

  lemma WindowWeaker(t: Table, ops: seq<Op>, k: Addr, start: int, more: int, less: int)
    requires |t.shards| == SHARDS && InOneWindow(t, ops, k, start, more) && less <= more
    ensures InOneWindow(t, ops, k, start, less)
  {
    hide Run, NotedWeight, NotedWithin;
  }
}
