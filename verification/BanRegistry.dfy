/** The ban registry as it runs: its table and its range bans updated in place (abuse.go, ranges.go, persist.go). */
module BanRegistry {
  import opened Results
  import opened Addresses
  import opened BanTable
  import opened BanRestore
  import opened BanSaving
  import opened BanStrikes

  class Registry {
    const shards: array<map<Addr, Entry>>
    var count: int
    var ranges: map<Prefix, RangeBan>
    var rangeCount: int
    var dirty: bool

    constructor ()
      ensures fresh(shards) && shards.Length == SHARDS && State() == EMPTY && !dirty
    {
      shards := new map<Addr, Entry>[SHARDS](i => map[]);
      count, ranges, rangeCount, dirty := 0, map[], 0, false;
      new;
      assert shards[..] == EmptyShards(SHARDS);
    }

    ghost function State(): Table
      reads this, shards
    {
      Table(shards[..], count, ranges, rangeCount)
    }

    ghost predicate Good()
      reads this, shards
    {
      shards.Length == SHARDS && BanTable.Valid(State())
    }

    /** The entry for k, made when there is room: a full table gives up one unbanned entry of the shard. */
    method EntryFor(k: Addr, now: nat, p: Params) returns (found: bool, ghost victim: Option<Addr>)
      requires shards.Length == SHARDS
      modifies this`count, shards
      ensures Fair(old(State()), k, now, p, victim)
      ensures State() == Room(old(State()), k, now, p, victim)
      ensures found <==> Find(State(), k).Some?
    {
      hide Shard;
      var i := Shard(k);
      ghost var before := State();
      victim := None;
      if k in shards[i] {
        return true, None;
      }
      if count >= p.maxEntries {
        var rest := shards[i].Keys;
        var evicted := false;
        while rest != {}
          invariant rest <= shards[i].Keys && shards[..] == before.shards && count == before.count && !evicted
          invariant forall v :: v in shards[i].Keys - rest ==> shards[i][v].until > now
          decreases rest
        {
          var v :| v in rest;
          if shards[i][v].until <= now {
            shards[i] := shards[i] - {v};
            count := count - 1;
            evicted := true;
            victim := Some(v);
            break;
          }
          rest := rest - {v};
        }
        if !evicted {
          return false, None;
        }
      }
      shards[i] := shards[i][k := NewEntry(now)];
      count := count + 1;
      return true, victim;
    }

    method CooldownFor(p: Params, offenses: nat) returns (d: int)
      requires offenses > 0
      ensures d == Cooldown(p, offenses)
    {
      d := p.base;
      var i := 1;
      while i < offenses
        invariant 1 <= i <= offenses
        invariant CooldownFrom(d, offenses - i, p.max) == Cooldown(p, offenses)
      {
        d := Wrap64(2 * d);
        if d >= p.max {
          return p.max;
        }
        i := i + 1;
      }
      if d > p.max {
        return p.max;
      }
    }

    /** Ban an entry from now on, one step further up. */
    method Escalate(e: Entry, now: nat, p: Params) returns (e': Entry, d: int)
      ensures e' == Escalated(e, now, p) && d == Cooldown(p, e.offenses + 1)
    {
      d := CooldownFor(p, e.offenses + 1);
      e' := Entry(0, now, Wrap64(now + d), e.offenses + 1);
    }

    method Store(k: Addr, e: Entry)
      requires shards.Length == SHARDS && Find(State(), k).Some?
      modifies shards
      ensures State() == Put(old(State()), k, ShardOf(old(State()), k)[k := e], old(count))
    {
      hide Shard;
      shards[Shard(k)] := shards[Shard(k)][k := e];
    }

    /** A strike against ip. isNew tells a new ban, which the caller must mark. */
    method Strike(ip: Addr, weight: int, now: nat, p: Params)
      returns (banned: bool, isNew: bool, ghost victim: Option<Addr>)
      requires Good()
      modifies this`count, shards
      ensures Good()
      ensures var op := Op.Strike(ip, weight, now, p, victim);
              && State() == Apply(old(State()), op)
              && (isNew <==> Marks(old(State()), op))
              && (if Exempt(p, Unmap(ip)) || weight <= 0 || !HasRoom(old(State()), op) then !banned && !isNew
                  else if BannedAt(old(State()), KeyOf(ip), now) then banned && !isNew
                  else banned == isNew == (Counting(old(State()), KeyOf(ip), now, p) + weight >= p.threshold))
    {
      hide Shard, ShardOk, Total, IsRange, KeyOf, Room, Fair, Put, Exempt, Cooldown;
      victim := None;
      if weight <= 0 || Exempt(p, Unmap(ip)) {
        return false, false, None;
      }
      var k := KeyOf(ip);
      ghost var before := State();
      var found: bool;
      found, victim := EntryFor(k, now, p);
      ghost var op := Op.Strike(ip, weight, now, p, victim);
      ApplyValid(before, op);
      RoomExactly(before, op);
      if !found {
        return false, false, victim;
      }
      var e := shards[Shard(k)][k];
      ghost var e0 := e;
      if e.until > now {
        PutSame(State(), k);
        return true, false, victim;
      }
      if now - e.windowStart > p.window {
        e := e.(windowStart := now, strikes := 0);
      }
      e := e.(strikes := e.strikes + weight);
      ghost var t1 := State();
      if e.strikes < p.threshold {
        Store(k, e);
        PutFinds(t1, k, ShardOf(t1, k)[k := e], t1.count, k);
        return false, false, victim;
      }
      var d: int;
      e, d := Escalate(e, now, p);
      Store(k, e);
      return true, true, victim;
    }

    /** A visit to a ban path: ban ip at once, unless it is banned already. */
    method BanNow(ip: Addr, now: nat, p: Params) returns (left: Left, isNew: bool, ghost victim: Option<Addr>)
      requires Good()
      modifies this`count, shards
      ensures Good()
      ensures var op := Op.BanNow(ip, now, p, victim);
              && State() == Apply(old(State()), op) && (isNew <==> Marks(old(State()), op))
              && (if Exempt(p, Unmap(ip)) || !HasRoom(old(State()), op) then left == Free && !isNew
                  else if BannedAt(old(State()), KeyOf(ip), now)
                  then left == LeftOf(EndOf(old(State()), KeyOf(ip)), now) && !isNew
                  else left == For(Cooldown(p, Offenses(old(State()), KeyOf(ip)) + 1)) && isNew)
    {
      hide Shard, ShardOk, Total, IsRange, KeyOf, Room, Fair, Put, Exempt, Cooldown;
      victim := None;
      if Exempt(p, Unmap(ip)) {
        return Free, false, None;
      }
      var k := KeyOf(ip);
      ghost var before := State();
      var found: bool;
      found, victim := EntryFor(k, now, p);
      ghost var op := Op.BanNow(ip, now, p, victim);
      ApplyValid(before, op);
      RoomExactly(before, op);
      if !found {
        return Free, false, victim;
      }
      var e := shards[Shard(k)][k];
      if e.until == BAN_FOREVER && now < BAN_FOREVER {
        PutSame(State(), k);
        return Forever, false, victim;
      }
      if e.until > now {
        PutSame(State(), k);
        return For(e.until - now), false, victim;
      }
      var d: int;
      e, d := Escalate(e, now, p);
      Store(k, e);
      return For(d), true, victim;
    }

    /** An administrator's ban of one client; its caller always marks it. */
    method BanFor(ip: Addr, d: int, now: nat, p: Params) returns (ok: bool, ghost victim: Option<Addr>)
      requires Good()
      modifies this`count, shards
      ensures Good()
      ensures var op := Op.BanFor(ip, d, now, p, victim);
              && State() == Apply(old(State()), op) && (ok <==> Marks(old(State()), op))
              && (ok <==> !Exempt(p, Unmap(ip)) && HasRoom(old(State()), op))
    {
      hide Shard, ShardOk, Total, IsRange, KeyOf, Room, Fair, Put, Exempt;
      victim := None;
      if Exempt(p, Unmap(ip)) {
        return false, None;
      }
      var k := KeyOf(ip);
      ghost var before := State();
      var found: bool;
      found, victim := EntryFor(k, now, p);
      ghost var op := Op.BanFor(ip, d, now, p, victim);
      ApplyValid(before, op);
      RoomExactly(before, op);
      if !found {
        return false, victim;
      }
      var e := shards[Shard(k)][k];
      if e.until <= now {
        e := e.(offenses := e.offenses + 1);
      }
      var until := if d <= 0 then BAN_FOREVER else Wrap64(now + d);
      Store(k, e.(until := until, strikes := 0, windowStart := now));
      return true, victim;
    }

    method Unban(ip: Addr) returns (found: bool)
      requires Good()
      modifies this`count, this`dirty, shards
      ensures Good() && State() == Apply(old(State()), Op.Unban(ip))
      ensures found <==> Marks(old(State()), Op.Unban(ip))
      ensures dirty == (old(dirty) || found)
    {
      hide Shard, ShardOk, Total, IsRange, KeyOf;
      ApplyValid(State(), Op.Unban(ip));
      var k := KeyOf(ip);
      if k !in shards[Shard(k)] {
        return false;
      }
      shards[Shard(k)] := shards[Shard(k)] - {k};
      count := count - 1;
      dirty := true;
      return true;
    }

    method SweepShard(i: nat, now: nat, p: Params) returns (evicted: nat)
      requires i < shards.Length
      modifies shards
      ensures shards[..] == old(shards[..])[i := SweptShard(old(shards[i]), now, p)]
      ensures evicted == |old(shards[i])| - |shards[i]|
    {
      hide Stale;
      ghost var before := shards[i];
      evicted := 0;
      var rest := shards[i].Keys;
      while rest != {}
        invariant rest <= shards[i].Keys <= before.Keys
        invariant shards[..] == old(shards[..])[i := shards[i]]
        invariant forall k :: k in shards[i] ==> shards[i][k] == before[k]
        invariant forall k :: k in before && k !in rest ==> (k in shards[i] <==> !Stale(before[k], now, p))
        invariant evicted == |before| - |shards[i]|
        decreases rest
      {
        var k :| k in rest;
        rest := rest - {k};
        if Stale(shards[i][k], now, p) {
          SizeWithout(shards[i], k);
          shards[i] := shards[i] - {k};
          evicted := evicted + 1;
        }
      }
      assert shards[i] == SweptShard(before, now, p);
    }

    /** Drop entries that are unbanned, out of their window and clean for long enough. */
    method Sweep(now: nat, p: Params) returns (evicted: nat)
      requires Good()
      modifies this`count, shards
      ensures Good() && State() == Apply(old(State()), Op.Sweep(now, p))
      ensures evicted == old(count) - count
    {
      hide Shard, ShardOk, IsRange, SweptShard, Total;
      ghost var before := State();
      ApplyValid(before, Op.Sweep(now, p));
      evicted := 0;
      var i := 0;
      while i < SHARDS
        invariant 0 <= i <= SHARDS
        invariant forall j :: 0 <= j < i ==> shards[j] == SweptShard(before.shards[j], now, p)
        invariant forall j :: i <= j < SHARDS ==> shards[j] == before.shards[j]
        invariant evicted == Total(before.shards) - Total(shards[..]) && count == before.count
      {
        ghost var all := shards[..];
        var n := SweepShard(i, now, p);
        TotalUpdate(all, i, shards[i]);
        evicted := evicted + n;
        i := i + 1;
      }
      assert shards[..] == Swept(before.shards, now, p);
      count := count - evicted;
    }

    method BanRange(q: Prefix, d: int, now: nat) returns (ok: bool)
      requires Good() && IsRange(q)
      modifies this`ranges, this`rangeCount
      ensures Good() && State() == Apply(old(State()), Op.BanRange(q, d, now))
      ensures ok <==> Marks(old(State()), Op.BanRange(q, d, now))
    {
      hide Shard, ShardOk, Total, TargetOf;
      ApplyValid(State(), Op.BanRange(q, d, now));
      var b := RangeBan(0, 0);
      if q in ranges {
        b := ranges[q];
      } else {
        if |ranges| >= MAX_RANGES {
          return false;
        }
        rangeCount := rangeCount + 1;
      }
      if b.until <= now {
        b := b.(offenses := b.offenses + 1);
      }
      b := b.(until := if d <= 0 then BAN_FOREVER else Wrap64(now + d));
      ranges := ranges[q := b];
      return true;
    }

    method UnbanRange(q: Prefix) returns (found: bool)
      requires Good()
      modifies this`ranges, this`rangeCount, this`dirty
      ensures Good() && State() == Apply(old(State()), Op.UnbanRange(q))
      ensures found <==> Marks(old(State()), Op.UnbanRange(q))
      ensures dirty == (old(dirty) || found)
    {
      hide Shard, ShardOk, Total, IsRange;
      ApplyValid(State(), Op.UnbanRange(q));
      if q !in ranges {
        return false;
      }
      ranges := ranges - {q};
      rangeCount := rangeCount - 1;
      dirty := true;
      return true;
    }

    method SweepRanges(now: nat) returns (evicted: nat)
      requires Good()
      modifies this`ranges, this`rangeCount
      ensures Good() && State() == Apply(old(State()), Op.SweepRanges(now))
      ensures evicted == old(|ranges|) - |ranges|
    {
      hide Shard, ShardOk, Total, IsRange;
      ghost var before := State();
      ApplyValid(before, Op.SweepRanges(now));
      evicted := 0;
      if rangeCount == 0 {
        assert ranges == map[];
        assert LiveRanges(ranges, now) == map[];
        assert State() == Apply(before, Op.SweepRanges(now));
        return 0;
      }
      var rest := ranges.Keys;
      while rest != {}
        invariant rest <= ranges.Keys <= before.ranges.Keys
        invariant forall q :: q in ranges ==> ranges[q] == before.ranges[q]
        invariant forall q :: q in before.ranges && q !in rest ==> (q in ranges <==> before.ranges[q].until > now)
        invariant evicted == |before.ranges| - |ranges| && rangeCount == before.rangeCount
        decreases rest
      {
        var q :| q in rest;
        rest := rest - {q};
        if ranges[q].until <= now {
          assert (ranges - {q}).Keys == ranges.Keys - {q};
          ranges := ranges - {q};
          evicted := evicted + 1;
        }
      }
      assert ranges == LiveRanges(before.ranges, now);
      rangeCount := rangeCount - evicted;
    }

    /** The latest end of an active range over ip, or 0. */
    method RangeEndOver(ip: Addr, now: nat) returns (until: int)
      ensures until == RangeUntil(ranges, ip, now)
    {
      hide Contains;
      until := 0;
      var rest := ranges.Keys;
      while rest != {}
        invariant rest <= ranges.Keys
        invariant forall q :: q in ranges && q !in rest && ranges[q].until > now && Contains(q, ip) ==>
                    until >= ranges[q].until
        invariant until == 0 || until in Ends(ranges, ip, now)
        invariant until >= 0
        decreases rest
      {
        var q :| q in rest;
        rest := rest - {q};
        var b := ranges[q];
        if b.until > now && b.until > until && Contains(q, ip) {
          until := b.until;
        }
      }
      if Ends(ranges, ip, now) != {} {
        var m := RangeUntil(ranges, ip, now);
        assert m in Ends(ranges, ip, now);
        assert until >= m;
      }
    }

    /** Whether ip is banned, individually or by a range, and for how much longer. */
    method Banned(ip: Addr, now: nat, p: Params) returns (left: Left)
      requires Good()
      ensures left == BannedLeft(State(), p, ip, now)
    {
      hide Shard, ShardOk, Total, IsRange, KeyOf, Exempt, RangeUntil;
      var k := KeyOf(ip);
      var until := 0;
      if k in shards[Shard(k)] {
        until := shards[Shard(k)][k].until;
      }
      if until == BAN_FOREVER {
        return Forever;
      }
      if until > now {
        return For(until - now);
      }
      NoRanges(ranges, Unmap(ip), now);
      if rangeCount == 0 {
        return Free;
      }
      until := RangeEndOver(Unmap(ip), now);
      RangeEndLater(ranges, Unmap(ip), now);
      if until == 0 || Exempt(p, Unmap(ip)) {
        return Free;
      }
      if until == BAN_FOREVER {
        return Forever;
      }
      return For(until - now);
    }

    /** Copy the bans shard by shard; nothing else changes them meanwhile. */
    method Snapshot(now: nat) returns (snap: Snapshot)
      requires Good()
      ensures snap == SnapshotOf(State(), now)
    {
      hide Shard, ShardOk, Total, IsRange, SavedShard, SavedClients;
      var clients: map<Prefix, Saved> := map[];
      var i := 0;
      assert shards[..0] == [];
      NoClients();
      while i < SHARDS
        invariant 0 <= i <= SHARDS && clients == SavedClients(shards[..i])
      {
        SavedClientsSnoc(shards[..i], shards[i]);
        assert shards[..i + 1] == shards[..i] + [shards[i]];
        clients := clients + SavedShard(shards[i]);
        i := i + 1;
      }
      assert shards[..SHARDS] == shards[..];
      snap := BanRestore.Snapshot(clients, SavedRanges(ranges, now));
    }

    method RestoreOne(q: Prefix, s: Saved, now: nat, p: Params) returns (ghost victim: Option<Addr>)
      requires shards.Length == SHARDS
      modifies this`count, shards
      ensures Fairly(old(State()), q, s, now, p, victim)
      ensures State() == RestoreClient(old(State()), q, s, now, p, victim)
      ensures old(count) <= count <= old(count) + 1
      ensures old(count) < p.maxEntries ==> victim == None
    {
      hide Shard, RestoredKey, Put;
      victim := None;
      var key := RestoredKey(q, s, now, p);
      if key.None? {
        return None;
      }
      var k := key.value;
      ghost var before := State();
      var found: bool;
      found, victim := EntryFor(k, now, p);
      RoomCount(before, k, now, p, victim);
      if found {
        PutShard(State(), k, ShardOf(State(), k)[k := Entry(0, now, s.until, Max1(s.offenses))], count);
        Store(k, Entry(0, now, s.until, Max1(s.offenses)));
      }
    }

    method RestoreRangeBan(q: Prefix, s: Saved, now: nat)
      modifies this`ranges, this`rangeCount
      ensures State() == RestoreRange(old(State()), q, s, now)
    {
      var target := TargetOf(q);
      if target.Err? || target.value.single || s.until <= now {
        return;
      }
      var q := target.value.prefix;
      if q !in ranges {
        if |ranges| >= MAX_RANGES {
          return;
        }
        rangeCount := rangeCount + 1;
      }
      ranges := ranges[q := RangeBan(s.until, Max1(s.offenses))];
    }

    method RestoreEveryClient(clients: map<Prefix, Saved>, now: nat, p: Params)
      returns (ghost cs: seq<Prefix>, ghost victims: seq<Option<Addr>>)
      requires shards.Length == SHARDS
      modifies this`count, shards
      ensures ListsKeys(cs, clients) && |victims| == |cs| && FairAll(old(State()), clients, cs, victims, now, p)
      ensures State() == RestoreClients(old(State()), clients, cs, victims, now, p)
      ensures old(count) + |clients| <= p.maxEntries ==> forall i :: 0 <= i < |cs| ==> victims[i] == None
    {
      hide RestoreClient, Distinct, Fairly;
      cs, victims := [], [];
      NoneListed();
      var rest := clients.Keys;
      while rest != {}
        invariant rest <= clients.Keys && |victims| == |cs| && Distinct(cs)
        invariant forall q :: q in cs <==> q in clients && q !in rest
        invariant FairAll(old(State()), clients, cs, victims, now, p)
        invariant State() == RestoreClients(old(State()), clients, cs, victims, now, p)
        invariant |cs| == |clients| - |rest| && count <= old(count) + |cs|
        invariant old(count) + |clients| <= p.maxEntries ==> forall i :: 0 <= i < |cs| ==> victims[i] == None
        decreases rest
      {
        var q :| q in rest;
        ghost var victim := RestoreOne(q, clients[q], now, p);
        ListingGrows(cs, q);
        assert (cs + [q])[..|cs|] == cs && (victims + [victim])[..|cs|] == victims;
        cs, victims := cs + [q], victims + [victim];
        rest := rest - {q};
      }
      DistinctLists(cs, clients);
    }

    method RestoreEveryRange(saved: map<Prefix, Saved>, now: nat) returns (ghost rs: seq<Prefix>)
      modifies this`ranges, this`rangeCount
      ensures ListsKeys(rs, saved)
      ensures State() == RestoreRanges(old(State()), saved, rs, now)
    {
      hide RestoreRange, Distinct;
      rs := [];
      NoneListed();
      var rest := saved.Keys;
      while rest != {}
        invariant rest <= saved.Keys && Distinct(rs)
        invariant forall q :: q in rs <==> q in saved && q !in rest
        invariant State() == RestoreRanges(old(State()), saved, rs, now)
        decreases rest
      {
        var q :| q in rest;
        RestoreRangeBan(q, saved[q], now);
        ListingGrows(rs, q);
        assert (rs + [q])[..|rs|] == rs;
        rs := rs + [q];
        rest := rest - {q};
      }
      DistinctLists(rs, saved);
    }

    /** Load a saved file, in whatever order it lists its bans. The registry stays good; one that was empty has
      * then started on a file a registry wrote. */
    method Restore(snap: Snapshot, now: nat, p: Params)
      returns (ghost cs: seq<Prefix>, ghost victims: seq<Option<Addr>>, ghost rs: seq<Prefix>)
      requires Good()
      modifies this`count, this`ranges, this`rangeCount, shards
      ensures Good()
      ensures ListsKeys(cs, snap.clients) && ListsKeys(rs, snap.ranges) && |victims| == |cs|
      ensures FairAll(old(State()), snap.clients, cs, victims, now, p)
      ensures State() == RestoreRanges(RestoreClients(old(State()), snap.clients, cs, victims, now, p), snap.ranges, rs, now)
      ensures old(State()) == EMPTY && FileOk(snap) ==>
                && Started(Fresh(State(), snap, now), false)
                && (Fits(snap, p) && p.max >= 0 ==> Started(Fresh(State(), snap, now), true))
      ensures old(State()) == EMPTY && Fits(snap, p) ==> State() == Restored(snap, cs, rs, now, p)
    {
      hide RestoreClient, RestoreRange, EmptyShards, Exempt, RestoreClients, RestoreRanges, FairAll, FileOk, ShardOk, Total,
        IsRange, Recorded;
      ghost var before := State();
      cs, victims := RestoreEveryClient(snap.clients, now, p);
      rs := RestoreEveryRange(snap.ranges, now);
      RestoreClientsValid(before, snap.clients, cs, victims, now, p);
      RestoreRangesValid(RestoreClients(before, snap.clients, cs, victims, now, p), snap.ranges, rs, now);
      if before == EMPTY && Fits(snap, p) {
        assert victims == NoVictims(|cs|);
      }
      if before == EMPTY && FileOk(snap) {
        LoadedStarted(snap, cs, victims, rs, now, p);
      }
    }
  }

  lemma NoneListed()
    ensures Distinct([])
  {
  }

  lemma DistinctLists(qs: seq<Prefix>, m: map<Prefix, Saved>)
    requires Distinct(qs) && forall q :: q in qs <==> q in m
    ensures ListsKeys(qs, m)
  {
  }

  lemma NoClients()
    ensures SavedClients([]) == map[]
  {
  }

  lemma RoomCount(t: Table, k: Addr, now: nat, p: Params, victim: Option<Addr>)
    requires |t.shards| == SHARDS && Fair(t, k, now, p, victim)
    ensures t.count <= Room(t, k, now, p, victim).count <= t.count + 1
    ensures t.count < p.maxEntries ==> victim == None
  {
    hide Shard;
  }

  lemma ListingGrows(qs: seq<Prefix>, q: Prefix)
    requires Distinct(qs) && q !in qs
    ensures Distinct(qs + [q]) && forall x :: x in qs + [q] <==> x in qs || x == q
  {
  }

  lemma PutSame(t: Table, k: Addr)
    requires |t.shards| == SHARDS && Find(t, k).Some?
    ensures Put(t, k, ShardOf(t, k)[k := Find(t, k).value], t.count) == t
  {
    hide Shard;
    assert ShardOf(t, k)[k := Find(t, k).value] == ShardOf(t, k);
  }

  lemma NoRanges(ranges: map<Prefix, RangeBan>, ip: Addr, now: nat)
    ensures |ranges| == 0 ==> RangeUntil(ranges, ip, now) == 0
  {
    if |ranges| == 0 {
      assert ranges == map[];
      assert Ends(ranges, ip, now) == {};
    }
  }

  lemma RangeEndLater(ranges: map<Prefix, RangeBan>, ip: Addr, now: nat)
    ensures RangeUntil(ranges, ip, now) == 0 || RangeUntil(ranges, ip, now) > now
  {
  }
}
