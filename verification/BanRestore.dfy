/** Who is banned, and what a restart keeps (abuse.go, ranges.go, persist.go). */
module BanRestore {
  import opened Results
  import opened Addresses
  import opened BanTable

  // ----- who is banned -----

  /** How much longer an address is banned. */
  datatype Left = Free | For(left: int) | Forever

  ghost function Ends(ranges: map<Prefix, RangeBan>, ip: Addr, now: nat): set<int> {
    set q | q in ranges && ranges[q].until > now && Contains(q, ip) :: ranges[q].until
  }

  ghost predicate IsMax(s: set<int>, m: int) {
    m in s && forall x :: x in s ==> x <= m
  }

  lemma HasElement(s: set<int>)
    ensures s == {} || exists x :: x in s
  {
    if forall x :: x !in s {
      assert s == {};
    }
  }

  lemma {:induction false} MaxExists(s: set<int>)
    requires s != {}
    ensures exists m :: IsMax(s, m)
  {
    HasElement(s);
    var x :| x in s;
    var rest := s - {x};
    if rest != {} {
      MaxExists(rest);
      var m :| IsMax(rest, m);
      assert forall y :: y in s ==> y == x || y in rest;
      assert IsMax(s, if x > m then x else m);
    } else {
      assert forall y :: y in s ==> y == x || y in rest;
      assert IsMax(s, x);
    }
  }

  /** The latest end of an active range over ip, or 0. */
  ghost function RangeUntil(ranges: map<Prefix, RangeBan>, ip: Addr, now: nat): (u: int)
    ensures Ends(ranges, ip, now) == {} ==> u == 0
    ensures Ends(ranges, ip, now) != {} ==> IsMax(Ends(ranges, ip, now), u)
  {
    var s := Ends(ranges, ip, now);
    if s == {} then 0
    else
      MaxExists(s);
      var m :| IsMax(s, m);
      m
  }

  function LeftOf(until: int, now: nat): Left {
    if until == BAN_FOREVER then Forever else if until > now then For(until - now) else Free
  }

  /** A client's own ban counts first; a range's only for addresses that are not exempt now. */
  ghost function BannedLeft(t: Table, p: Params, ip: Addr, now: nat): Left
    requires |t.shards| == SHARDS
  {
    var own := LeftOf(EndOf(t, KeyOf(ip)), now);
    if !own.Free? then own
    else if Exempt(p, Unmap(ip)) then Free
    else LeftOf(RangeUntil(t.ranges, Unmap(ip), now), now)
  }

  /** An address is free exactly when its own ban is over and so is that of every block over it, or it is exempt from
    * those; otherwise it is told when its own ban ends, or the last of the blocks' bans. */
  lemma BannedMeans(t: Table, p: Params, ip: Addr, now: nat)
    requires |t.shards| == SHARDS && now < BAN_FOREVER
    ensures var own, left := EndOf(t, KeyOf(ip)), BannedLeft(t, p, ip, now);
            && (left.Free? <==>
                own <= now && (Exempt(p, Unmap(ip)) || forall q :: q in t.ranges && Contains(q, Unmap(ip)) ==> t.ranges[q].until <= now))
            && (own > now ==> left == if own == BAN_FOREVER then Forever else For(own - now))
            && (own <= now && !left.Free? ==>
                exists q :: q in t.ranges && Contains(q, Unmap(ip)) && Latest(t.ranges, q, Unmap(ip)) &&
                            left == if t.ranges[q].until == BAN_FOREVER then Forever else For(t.ranges[q].until - now))
  {
    hide Contains, Exempt, KeyOf, Unmap, Shard;
    var to := Unmap(ip);
    var ends := Ends(t.ranges, to, now);
    var u := RangeUntil(t.ranges, to, now);
    if ends == {} {
      forall q | q in t.ranges && Contains(q, to) ensures t.ranges[q].until <= now {
        var e := t.ranges[q].until;
        assert e > now ==> e in ends;
      }
    } else {
      assert u in ends;
      var q :| q in t.ranges && t.ranges[q].until > now && Contains(q, to) && t.ranges[q].until == u;
      forall x | x in t.ranges && Contains(x, to) ensures t.ranges[x].until <= u {
        assert t.ranges[x].until > now ==> t.ranges[x].until in ends;
      }
      assert Latest(t.ranges, q, to);
    }
  }

  /** No other block over ip is banned longer than q. */
  ghost predicate Latest(ranges: map<Prefix, RangeBan>, q: Prefix, ip: Addr)
    requires q in ranges
  {
    forall x :: x in ranges && Contains(x, ip) ==> ranges[x].until <= ranges[q].until
  }

  // ----- the saved file -----

  datatype Saved = Saved(until: int, offenses: nat)

  /** What bans.json holds; each client is named by its key's prefix. */
  datatype Snapshot = Snapshot(clients: map<Prefix, Saved>, ranges: map<Prefix, Saved>)

  function SavedShard(m: map<Addr, Entry>): map<Prefix, Saved> {
    map k | k in m && m[k].offenses > 0 :: KeyPrefix(k) := Saved(m[k].until, m[k].offenses)
  }

  function SavedClients(shards: seq<map<Addr, Entry>>): map<Prefix, Saved> {
    if shards == [] then map[] else SavedShard(shards[0]) + SavedClients(shards[1..])
  }

  function SavedRanges(ranges: map<Prefix, RangeBan>, now: nat): map<Prefix, Saved> {
    map q | q in ranges && ranges[q].until > now :: Saved(ranges[q].until, ranges[q].offenses)
  }

  /** Every client with ban history and every active range. */
  function SnapshotOf(t: Table, now: nat): Snapshot {
    Snapshot(SavedClients(t.shards), SavedRanges(t.ranges, now))
  }

  /** A table's client as the file knows it. */
  function SavedAs(t: Table, k: Addr): Option<Saved>
    requires |t.shards| == SHARDS
  {
    match Find(t, k)
    case None => None
    case Some(e) => if e.offenses > 0 then Some(Saved(e.until, e.offenses)) else None
  }

  function InFile(clients: map<Prefix, Saved>, k: Addr): Option<Saved> {
    if KeyPrefix(k) in clients then Some(clients[KeyPrefix(k)]) else None
  }

  /** The keys whose prefixes appear in the shards from i on. */
  ghost predicate Placed(shards: seq<map<Addr, Entry>>, from: nat) {
    forall i, k :: 0 <= i < |shards| && k in shards[i] ==> Shard(k) == from + i
  }

  /** q names a client with history, sitting in its own shard. */
  predicate HasHistory(shards: seq<map<Addr, Entry>>, from: nat, q: Prefix) {
    && q == KeyPrefix(q.addr)
    && var i := Shard(q.addr) - from;
       0 <= i < |shards| && q.addr in shards[i] && shards[i][q.addr].offenses > 0
  }

  function HistoryOf(shards: seq<map<Addr, Entry>>, from: nat, q: Prefix): Saved
    requires HasHistory(shards, from, q)
  {
    var e := shards[Shard(q.addr) - from][q.addr];
    Saved(e.until, e.offenses)
  }

  lemma HistoryStep(shards: seq<map<Addr, Entry>>, from: nat, q: Prefix)
    requires Placed(shards, from) && shards != []
    ensures Placed(shards[1..], from + 1)
    ensures HasHistory(shards, from, q) <==> q in SavedShard(shards[0]) || HasHistory(shards[1..], from + 1, q)
    ensures q in SavedShard(shards[0]) ==>
              !HasHistory(shards[1..], from + 1, q) && HistoryOf(shards, from, q) == SavedShard(shards[0])[q]
    ensures HasHistory(shards[1..], from + 1, q) ==>
              HistoryOf(shards, from, q) == HistoryOf(shards[1..], from + 1, q)
  {
    hide Shard, SavedShard, KeyPrefix;
    var rest := shards[1..];
    forall i, k | 0 <= i < |rest| && k in rest[i] ensures Shard(k) == from + 1 + i {
      assert k in shards[i + 1];
    }
    SavedShardHas(shards[0], q);
    assert q.addr in shards[0] ==> Shard(q.addr) == from;
  }

  lemma {:induction false} SavedClientsAre(shards: seq<map<Addr, Entry>>, from: nat, q: Prefix)
    requires Placed(shards, from)
    ensures q in SavedClients(shards) <==> HasHistory(shards, from, q)
    ensures q in SavedClients(shards) ==> SavedClients(shards)[q] == HistoryOf(shards, from, q)
  {
    hide Shard, SavedShard, KeyPrefix, Placed, HasHistory, HistoryOf;
    if shards == [] {
      NoHistory(from, q);
    } else {
      HistoryStep(shards, from, q);
      SavedClientsAre(shards[1..], from + 1, q);
    }
  }

  lemma NoHistory(from: nat, q: Prefix)
    ensures !HasHistory([], from, q)
  {
  }

  lemma {:induction false} SavedClientsSnoc(a: seq<map<Addr, Entry>>, m: map<Addr, Entry>)
    ensures SavedClients(a + [m]) == SavedClients(a) + SavedShard(m)
  {
    hide SavedShard, Shard, KeyPrefix;
    if a == [] {
      assert a + [m] == [m] && [m][1..] == [];
    } else {
      assert (a + [m])[1..] == a[1..] + [m];
      SavedClientsSnoc(a[1..], m);
    }
  }

  lemma SavedShardHas(m: map<Addr, Entry>, q: Prefix)
    ensures q in SavedShard(m) <==> q == KeyPrefix(q.addr) && q.addr in m && m[q.addr].offenses > 0
    ensures q in SavedShard(m) ==> SavedShard(m)[q] == Saved(m[q.addr].until, m[q.addr].offenses)
  {
    if q == KeyPrefix(q.addr) && q.addr in m && m[q.addr].offenses > 0 {
      assert KeyPrefix(q.addr) in SavedShard(m);
    }
  }

  lemma ValidPlaced(t: Table)
    requires Valid(t)
    ensures Placed(t.shards, 0)
  {
    hide Shard, Total, KeyOf, IsRange;
    forall i, k | 0 <= i < |t.shards| && k in t.shards[i] ensures Shard(k) == 0 + i {
      assert ShardOk(t.shards[i], i);
    }
  }

  /** The snapshot holds exactly the clients with history, each with its end and its offences. */
  lemma SnapshotExact(t: Table, now: nat, k: Addr)
    requires Valid(t)
    ensures InFile(SnapshotOf(t, now).clients, k) == SavedAs(t, k)
  {
    hide Shard, Total, KeyOf, IsRange, SavedClients, SavedRanges, ShardOk;
    ValidPlaced(t);
    SavedClientsAre(t.shards, 0, KeyPrefix(k));
  }

  // ----- restoring -----

  /** History too old to matter is dropped. */
  predicate Remembered(s: Saved, now: nat, p: Params) {
    s.until == BAN_FOREVER || now - s.until <= p.max
  }

  function Max1(n: nat): nat { if n == 0 then 1 else n }

  function RestoreClient(t: Table, q: Prefix, s: Saved, now: nat, p: Params, victim: Option<Addr>): (t': Table)
    requires |t.shards| == SHARDS
    ensures |t'.shards| == SHARDS && t'.ranges == t.ranges && t'.rangeCount == t.rangeCount
  {
    match RestoredKey(q, s, now, p)
    case None => t
    case Some(k) =>
      var t' := Room(t, k, now, p, victim);
      if Find(t', k).None? then t'
      else Put(t', k, ShardOf(t', k)[k := Entry(0, now, s.until, Max1(s.offenses))], t'.count)
  }

  /** The key a saved client is restored under, if it is: a single client, not exempt, its history not too old. */
  function RestoredKey(q: Prefix, s: Saved, now: nat, p: Params): Option<Addr> {
    match TargetOf(q)
    case Err(_) => None
    case Ok(target) =>
      if !target.single || !Remembered(s, now, p) then None else Trackable(p, target.prefix.addr)
  }

  function RestoreRange(t: Table, q: Prefix, s: Saved, now: nat): (t': Table)
    ensures t'.shards == t.shards && t'.count == t.count
  {
    match TargetOf(q)
    case Err(_) => t
    case Ok(target) =>
      var q := target.prefix;
      if target.single || s.until <= now then t
      else if q !in t.ranges && |t.ranges| >= MAX_RANGES then t
      else
        t.(ranges := t.ranges[q := RangeBan(s.until, Max1(s.offenses))],
           rangeCount := t.rangeCount + if q in t.ranges then 0 else 1)
  }

  function RestoreClients(t: Table, clients: map<Prefix, Saved>, qs: seq<Prefix>, victims: seq<Option<Addr>>,
                          now: nat, p: Params): (t': Table)
    requires |t.shards| == SHARDS && |victims| == |qs| && forall q :: q in qs ==> q in clients
    ensures |t'.shards| == SHARDS && t'.ranges == t.ranges && t'.rangeCount == t.rangeCount
    decreases |qs|
  {
    if qs == [] then t
    else
      var n := |qs| - 1;
      RestoreClient(RestoreClients(t, clients, qs[..n], victims[..n], now, p), qs[n], clients[qs[n]], now, p, victims[n])
  }

  function RestoreRanges(t: Table, ranges: map<Prefix, Saved>, qs: seq<Prefix>, now: nat): (t': Table)
    requires forall q :: q in qs ==> q in ranges
    ensures t'.shards == t.shards && t'.count == t.count
    decreases |qs|
  {
    if qs == [] then t
    else
      var n := |qs| - 1;
      RestoreRange(RestoreRanges(t, ranges, qs[..n], now), qs[n], ranges[qs[n]], now)
  }

  function EmptyShards(n: nat): (s: seq<map<Addr, Entry>>)
    ensures |s| == n && forall i :: 0 <= i < n ==> s[i] == map[]
  {
    if n == 0 then [] else EmptyShards(n - 1) + [map[]]
  }

  const EMPTY := Table(EmptyShards(SHARDS), 0, map[], 0)

  lemma {:induction false} EmptyTotal(n: nat)
    ensures Total(EmptyShards(n)) == 0
  {
    if n > 0 {
      EmptyTotal(n - 1);
      TotalSnoc(EmptyShards(n - 1), map[]);
    }
  }

  lemma {:induction false} TotalSnoc(a: seq<map<Addr, Entry>>, m: map<Addr, Entry>)
    ensures Total(a + [m]) == Total(a) + |m|
  {
    if a == [] {
      assert a + [m] == [m] && [m][1..] == [];
    } else {
      assert (a + [m])[1..] == a[1..] + [m];
      TotalSnoc(a[1..], m);
    }
  }

  lemma EmptyValid()
    ensures Valid(EMPTY)
  {
    hide Shard, EmptyShards;
    EmptyTotal(SHARDS);
  }

  /** qs lists the keys of m, each once. */
  ghost predicate ListsKeys<V>(qs: seq<Prefix>, m: map<Prefix, V>) {
    && (forall q :: q in qs <==> q in m)
    && (forall i, j :: 0 <= i < j < |qs| ==> qs[i] != qs[j])
  }

  ghost predicate Distinct(qs: seq<Prefix>) {
    forall i, j :: 0 <= i < j < |qs| ==> qs[i] != qs[j]
  }

  /** A saved client of a running registry that the parameters still let in. */
  ghost predicate Welcome(q: Prefix, p: Params) {
    KeyOf(q.addr) == q.addr && q == KeyPrefix(q.addr) && !Exempt(p, q.addr)
  }

  lemma WelcomeKey(q: Prefix, s: Saved, now: nat, p: Params)
    requires Welcome(q, p)
    ensures RestoredKey(q, s, now, p) == if Remembered(s, now, p) then Some(q.addr) else None
  {
    hide Masked, Exempt;
    KeyReadsBack(q.addr);
    KeyUnmapped(q.addr);
  }

  lemma KeyUnmapped(k: Addr)
    requires KeyOf(k) == k
    ensures Unmap(k) == k
  {
  }

  /** With room for everyone, each remembered client is restored with its end and its offences. */
  lemma {:induction false} ClientsRestored(clients: map<Prefix, Saved>, qs: seq<Prefix>, victims: seq<Option<Addr>>, now: nat,
                                           p: Params, k: Addr)
    requires |victims| == |qs| && (forall q :: q in qs ==> q in clients && Welcome(q, p)) && Distinct(qs)
    requires |qs| <= p.maxEntries && KeyOf(k) == k
    requires forall i :: 0 <= i < |qs| ==> victims[i] == None
    ensures var t := RestoreClients(EMPTY, clients, qs, victims, now, p);
            && 0 <= t.count <= |qs|
            && Find(t, k) == if KeyPrefix(k) in qs && Remembered(clients[KeyPrefix(k)], now, p)
                             then Some(Entry(0, now, clients[KeyPrefix(k)].until, Max1(clients[KeyPrefix(k)].offenses)))
                             else None
    decreases |qs|
  {
    hide Shard, KeyOf, Exempt, Remembered, RestoredKey, Put, EmptyShards;
    if qs != [] {
      var n := |qs| - 1;
      var front, q := qs[..n], qs[n];
      assert forall i :: 0 <= i < n ==> front[i] == qs[i];
      ClientsRestored(clients, front, victims[..n], now, p, k);
      var t := RestoreClients(EMPTY, clients, front, victims[..n], now, p);
      WelcomeKey(q, clients[q], now, p);
      ClientsRestored(clients, front, victims[..n], now, p, q.addr);
      assert q !in front;
      assert forall x :: x in qs <==> x in front || x == q by {
        assert qs == front + [q];
      }
      OneRestored(t, q, clients[q], now, p, k);
    }
  }

  lemma OneRestored(t: Table, q: Prefix, s: Saved, now: nat, p: Params, k: Addr)
    requires |t.shards| == SHARDS && t.count < p.maxEntries && KeyOf(k) == k
    requires KeyOf(q.addr) == q.addr && q == KeyPrefix(q.addr) && Find(t, q.addr).None?
    requires RestoredKey(q, s, now, p) == if Remembered(s, now, p) then Some(q.addr) else None
    ensures var t' := RestoreClient(t, q, s, now, p, None);
            && t.count <= t'.count <= t.count + 1
            && Find(t', k) == if KeyPrefix(k) == q && Remembered(s, now, p)
                              then Some(Entry(0, now, s.until, Max1(s.offenses))) else Find(t, k)
  {
    hide Shard, KeyOf, Remembered, RestoredKey, Put;
    var j := q.addr;
    var m := ShardOf(t, j)[j := NewEntry(now)];
    var t1 := Put(t, j, m, t.count + 1);
    PutFinds(t, j, m, t.count + 1, k);
    PutFinds(t, j, m, t.count + 1, j);
    PutShard(t, j, m, t.count + 1);
    var m2 := m[j := Entry(0, now, s.until, Max1(s.offenses))];
    PutFinds(t1, j, m2, t1.count, k);
    PutShard(t1, j, m2, t1.count);
    assert KeyPrefix(k) == q <==> k == j;
  }

  lemma PutShard(t: Table, j: Addr, m: map<Addr, Entry>, count: int)
    requires |t.shards| == SHARDS
    ensures ShardOf(Put(t, j, m, count), j) == m && Put(t, j, m, count).count == count
  {
    hide Shard;
  }

  /** Saved ranges of a running registry all come back. */
  lemma {:induction false} RangesRestored(t: Table, ranges: map<Prefix, Saved>, qs: seq<Prefix>, now: nat)
    requires t.ranges == map[] && t.rangeCount == 0 && Distinct(qs) && |qs| <= MAX_RANGES
    requires forall q :: q in qs ==> q in ranges && IsRange(q)
    ensures var r := RestoreRanges(t, ranges, qs, now);
            && r.rangeCount == |r.ranges| <= |qs|
            && (forall q :: q in r.ranges <==> q in qs && ranges[q].until > now)
            && (forall q :: q in r.ranges ==> r.ranges[q] == RangeBan(ranges[q].until, Max1(ranges[q].offenses)))
    decreases |qs|
  {
    hide RestoreRange, IsRange, Max1;
    if qs != [] {
      var n := |qs| - 1;
      var front, q := qs[..n], qs[n];
      assert forall i :: 0 <= i < n ==> front[i] == qs[i];
      RangesRestored(t, ranges, front, now);
      var r := RestoreRanges(t, ranges, front, now);
      assert forall x :: x in qs <==> x in front || x == q by {
        assert qs == front + [q];
      }
      assert q !in front;
      OneRangeRestored(r, q, ranges[q], now);
    }
  }

  lemma OneRangeRestored(t: Table, q: Prefix, s: Saved, now: nat)
    requires IsRange(q) && q !in t.ranges && |t.ranges| < MAX_RANGES
    ensures var r := RestoreRange(t, q, s, now);
            && r.ranges == (if s.until > now then t.ranges[q := RangeBan(s.until, Max1(s.offenses))] else t.ranges)
            && r.rangeCount - t.rangeCount == |r.ranges| - |t.ranges| <= 1
  {
    hide TargetOf, Max1;
    assert t.ranges[q := RangeBan(s.until, Max1(s.offenses))].Keys == t.ranges.Keys + {q};
  }

  // ----- a restart is invisible -----

  function Restored(snap: Snapshot, cs: seq<Prefix>, rs: seq<Prefix>, now: nat, p: Params): (t: Table)
    requires (forall q :: q in cs ==> q in snap.clients) && (forall q :: q in rs ==> q in snap.ranges)
    ensures |t.shards| == SHARDS
  {
    Loaded(snap, cs, NoVictims(|cs|), rs, now, p)
  }

  function NoVictims(n: nat): (v: seq<Option<Addr>>)
    ensures |v| == n && forall i :: 0 <= i < n ==> v[i] == None
  {
    if n == 0 then [] else NoVictims(n - 1) + [None]
  }

  lemma {:induction false} ListingSize(qs: seq<Prefix>, s: set<Prefix>)
    requires Distinct(qs) && forall q :: q in qs <==> q in s
    ensures |qs| == |s|
    decreases |qs|
  {
    if qs == [] {
      assert s == {};
    } else {
      var n := |qs| - 1;
      assert qs == qs[..n] + [qs[n]];
      assert qs[n] !in qs[..n];
      ListingSize(qs[..n], s - {qs[n]});
      assert s == (s - {qs[n]}) + {qs[n]};
    }
  }

  /** A file as a running registry writes it: keys' prefixes, and blocks an administrator may ban. */
  ghost predicate FileOk(snap: Snapshot) {
    && (forall q :: q in snap.clients ==> KeyOf(q.addr) == q.addr && q == KeyPrefix(q.addr))
    && (forall q :: q in snap.ranges ==> IsRange(q))
    && |snap.ranges| <= MAX_RANGES
  }

  /** Everyone the file names fits the table and is not exempt now. */
  ghost predicate Fits(snap: Snapshot, p: Params) {
    |snap.clients| <= p.maxEntries && forall q :: q in snap.clients ==> !Exempt(p, q.addr)
  }

  lemma SnapshotOk(t: Table, now: nat)
    requires Valid(t)
    ensures FileOk(SnapshotOf(t, now))
  {
    hide Shard, Total, IsRange, SavedClients, KeyOf;
    ValidPlaced(t);
    var snap := SnapshotOf(t, now);
    forall q | q in snap.clients ensures KeyOf(q.addr) == q.addr && q == KeyPrefix(q.addr) {
      SavedClientsAre(t.shards, 0, q);
      assert ShardOk(t.shards[Shard(q.addr)], Shard(q.addr));
    }
    SubsetSmaller(snap.ranges.Keys, t.ranges.Keys);
  }

  lemma ClientAfterRestart(snap: Snapshot, cs: seq<Prefix>, rs: seq<Prefix>, now: nat, p: Params, k: Addr)
    requires FileOk(snap) && Fits(snap, p) && ListsKeys(cs, snap.clients) && ListsKeys(rs, snap.ranges) && KeyOf(k) == k
    ensures Find(Restored(snap, cs, rs, now, p), k)
            == match InFile(snap.clients, k)
               case None => None
               case Some(s) => if Remembered(s, now, p) then Some(Entry(0, now, s.until, Max1(s.offenses))) else None
  {
    hide Shard, Total, IsRange, KeyOf, Exempt, Remembered, RestoreClients, RestoreRanges;
    forall q | q in cs ensures Welcome(q, p) {}
    ListingSize(cs, snap.clients.Keys);
    ClientsRestored(snap.clients, cs, NoVictims(|cs|), now, p, k);
    var r := RestoreClients(EMPTY, snap.clients, cs, NoVictims(|cs|), now, p);
    assert Restored(snap, cs, rs, now, p).shards == r.shards;
  }

  lemma RangesAfterRestart(snap: Snapshot, cs: seq<Prefix>, rs: seq<Prefix>, now: nat, p: Params)
    requires FileOk(snap) && ListsKeys(cs, snap.clients) && ListsKeys(rs, snap.ranges)
    ensures var r := Restored(snap, cs, rs, now, p);
            forall q :: (q in r.ranges <==> q in snap.ranges && snap.ranges[q].until > now)
                        && (q in r.ranges ==> r.ranges[q].until == snap.ranges[q].until &&
                                              r.ranges[q].offenses == Max1(snap.ranges[q].offenses))
  {
    hide Shard, Total, IsRange, KeyOf, RestoreClients, RestoreRanges;
    ListingSize(rs, snap.ranges.Keys);
    RangesRestored(RestoreClients(EMPTY, snap.clients, cs, NoVictims(|cs|), now, p), snap.ranges, rs, now);
  }

  // ----- a restored table is a sound one -----

  /** The eviction's choice when q's client is restored into t, if it is. */
  predicate Fairly(t: Table, q: Prefix, s: Saved, now: nat, p: Params, victim: Option<Addr>)
    requires |t.shards| == SHARDS
  {
    match RestoredKey(q, s, now, p)
    case None => true
    case Some(k) => Fair(t, k, now, p, victim)
  }

  predicate FairAll(t: Table, clients: map<Prefix, Saved>, qs: seq<Prefix>, victims: seq<Option<Addr>>, now: nat, p: Params)
    requires |t.shards| == SHARDS && |victims| == |qs| && forall q :: q in qs ==> q in clients
    decreases |qs|
  {
    qs == [] ||
    var n := |qs| - 1;
    && FairAll(t, clients, qs[..n], victims[..n], now, p)
    && Fairly(RestoreClients(t, clients, qs[..n], victims[..n], now, p), qs[n], clients[qs[n]], now, p, victims[n])
  }

  lemma RestoredKeyIsKey(q: Prefix, s: Saved, now: nat, p: Params)
    ensures var k := RestoredKey(q, s, now, p); k.Some? ==> KeyOf(k.value) == k.value
  {
    hide TargetOf, Exempt, Remembered, KeyOf;
    if RestoredKey(q, s, now, p).Some? {
      KeyOfKey(TargetOf(q).value.prefix.addr);
    }
  }

  lemma RestoreClientValid(t: Table, q: Prefix, s: Saved, now: nat, p: Params, victim: Option<Addr>)
    requires Valid(t) && Fairly(t, q, s, now, p, victim)
    ensures Valid(RestoreClient(t, q, s, now, p, victim))
  {
    hide Shard, Total, IsRange, KeyOf, ShardOk, Put, Room, RestoredKey, Fair;
    RestoredKeyIsKey(q, s, now, p);
    if RestoredKey(q, s, now, p).Some? {
      var k := RestoredKey(q, s, now, p).value;
      RoomValid(t, k, now, p, victim);
      var t' := Room(t, k, now, p, victim);
      if Find(t', k).Some? {
        var e := Entry(0, now, s.until, Max1(s.offenses));
        FoundOk(t', k);
        SizeWith(ShardOf(t', k), k, e);
        ShardWith(ShardOf(t', k), Shard(k), k, e);
        PutValid(t', k, ShardOf(t', k)[k := e], t'.count);
      }
    }
  }

  lemma RestoreRangeValid(t: Table, q: Prefix, s: Saved, now: nat)
    requires Valid(t)
    ensures Valid(RestoreRange(t, q, s, now))
  {
    hide Shard, Total, KeyOf, ShardOk, TargetOf, Max1;
    if TargetOf(q).Ok? {
      var target := TargetOf(q).value;
      TargetStable(q);
      var r := RangeBan(s.until, Max1(s.offenses));
      assert t.ranges[target.prefix := r].Keys == t.ranges.Keys + {target.prefix};
      assert !target.single ==> IsRange(target.prefix);
    }
  }

  lemma {:induction false} RestoreClientsValid(t: Table, clients: map<Prefix, Saved>, qs: seq<Prefix>,
                                               victims: seq<Option<Addr>>, now: nat, p: Params)
    requires Valid(t) && |victims| == |qs| && forall q :: q in qs ==> q in clients
    requires FairAll(t, clients, qs, victims, now, p)
    ensures Valid(RestoreClients(t, clients, qs, victims, now, p))
    decreases |qs|
  {
    hide ShardOk, Total, IsRange, Fairly, RestoreClient;
    if qs != [] {
      var n := |qs| - 1;
      RestoreClientsValid(t, clients, qs[..n], victims[..n], now, p);
      RestoreClientValid(RestoreClients(t, clients, qs[..n], victims[..n], now, p), qs[n], clients[qs[n]], now, p, victims[n]);
    }
  }

  lemma {:induction false} RestoreRangesValid(t: Table, ranges: map<Prefix, Saved>, qs: seq<Prefix>, now: nat)
    requires Valid(t) && forall q :: q in qs ==> q in ranges
    ensures Valid(RestoreRanges(t, ranges, qs, now))
    decreases |qs|
  {
    hide Valid, RestoreRange;
    if qs != [] {
      var n := |qs| - 1;
      RestoreRangesValid(t, ranges, qs[..n], now);
      RestoreRangeValid(RestoreRanges(t, ranges, qs[..n], now), qs[n], ranges[qs[n]], now);
    }
  }

  lemma RestoreCounts(t: Table, q: Prefix, s: Saved, now: nat, p: Params, victim: Option<Addr>)
    requires |t.shards| == SHARDS
    ensures RestoreClient(t, q, s, now, p, victim).count <= t.count + 1
    ensures t.count < p.maxEntries && victim == None ==> Fairly(t, q, s, now, p, victim)
  {
    hide Shard, RestoredKey;
  }

  /** While there is room for everyone no one is evicted, and that is fair. */
  lemma {:induction false} RoomForAll(clients: map<Prefix, Saved>, qs: seq<Prefix>, victims: seq<Option<Addr>>, now: nat,
                                      p: Params)
    requires |victims| == |qs| <= p.maxEntries && forall q :: q in qs ==> q in clients
    requires forall i :: 0 <= i < |qs| ==> victims[i] == None
    ensures RestoreClients(EMPTY, clients, qs, victims, now, p).count <= |qs|
    ensures FairAll(EMPTY, clients, qs, victims, now, p)
    decreases |qs|
  {
    hide Fairly, RestoreClient;
    if qs != [] {
      var n := |qs| - 1;
      RoomForAll(clients, qs[..n], victims[..n], now, p);
      RestoreCounts(RestoreClients(EMPTY, clients, qs[..n], victims[..n], now, p), qs[n], clients[qs[n]], now, p, victims[n]);
    }
  }

  /** What a start makes of a saved file, listed in any order and with any fair evictions. */
  function Loaded(snap: Snapshot, cs: seq<Prefix>, victims: seq<Option<Addr>>, rs: seq<Prefix>, now: nat, p: Params)
    : (t: Table)
    requires |victims| == |cs| && (forall q :: q in cs ==> q in snap.clients) && (forall q :: q in rs ==> q in snap.ranges)
    ensures |t.shards| == SHARDS
  {
    RestoreRanges(RestoreClients(EMPTY, snap.clients, cs, victims, now, p), snap.ranges, rs, now)
  }

  lemma LoadedValid(snap: Snapshot, cs: seq<Prefix>, victims: seq<Option<Addr>>, rs: seq<Prefix>, now: nat, p: Params)
    requires |victims| == |cs| && (forall q :: q in cs ==> q in snap.clients) && (forall q :: q in rs ==> q in snap.ranges)
    requires FairAll(EMPTY, snap.clients, cs, victims, now, p)
    ensures Valid(Loaded(snap, cs, victims, rs, now, p))
  {
    hide Valid, FairAll, RestoreClients, RestoreRanges;
    EmptyValid();
    RestoreClientsValid(EMPTY, snap.clients, cs, victims, now, p);
    RestoreRangesValid(RestoreClients(EMPTY, snap.clients, cs, victims, now, p), snap.ranges, rs, now);
  }

  function Live(until: int, now: nat): int { if until > now then until else 0 }

  function FileEnd(clients: map<Prefix, Saved>, k: Addr): int {
    if KeyPrefix(k) in clients then clients[KeyPrefix(k)].until else 0
  }

  function FileRangeEnd(ranges: map<Prefix, Saved>, q: Prefix): int {
    if q in ranges then ranges[q].until else 0
  }

  /** The bans in force are exactly those the file has, with the same ends. */
  ghost predicate Matches(t: Table, snap: Snapshot, now: nat)
    requires |t.shards| == SHARDS
  {
    && (forall k :: KeyOf(k) == k ==> Live(EndOf(t, k), now) == Live(FileEnd(snap.clients, k), now))
    && (forall q :: Live(RangeEnd(t, q), now) == Live(FileRangeEnd(snap.ranges, q), now))
  }

  /** Every ban in force on a client is in the file with its end, and the ranges are exactly the file's. */
  ghost predicate Covers(t: Table, snap: Snapshot, now: nat)
    requires |t.shards| == SHARDS
  {
    && (forall k :: KeyOf(k) == k && Live(EndOf(t, k), now) != 0 ==> EndOf(t, k) == FileEnd(snap.clients, k))
    && (forall q :: Live(RangeEnd(t, q), now) == Live(FileRangeEnd(snap.ranges, q), now))
  }

  /** Every end in the table is the file's. */
  ghost predicate FromFile(t: Table, clients: map<Prefix, Saved>)
    requires |t.shards| == SHARDS
  {
    forall k :: EndOf(t, k) != 0 ==> EndOf(t, k) == FileEnd(clients, k)
  }

  lemma RoomEnds(t: Table, j: Addr, now: nat, p: Params, victim: Option<Addr>, k: Addr)
    requires |t.shards| == SHARDS
    ensures EndOf(Room(t, j, now, p, victim), k) == 0 || EndOf(Room(t, j, now, p, victim), k) == EndOf(t, k)
  {
    hide Shard, Put;
    var m := ShardOf(t, j);
    if j !in m {
      PutFinds(t, j, m[j := NewEntry(now)], t.count + 1, k);
      if victim.Some? {
        PutFinds(t, j, (m - {victim.value})[j := NewEntry(now)], t.count, k);
      }
    }
  }

  lemma RestoreClientFrom(t: Table, clients: map<Prefix, Saved>, q: Prefix, now: nat, p: Params, victim: Option<Addr>)
    requires |t.shards| == SHARDS && FromFile(t, clients) && q in clients
    requires KeyOf(q.addr) == q.addr && q == KeyPrefix(q.addr)
    ensures FromFile(RestoreClient(t, q, clients[q], now, p, victim), clients)
  {
    hide Shard, Put, Room, KeyOf, RestoredKey, Max1;
    NamesItsKey(q, clients[q], now, p);
    var t' := RestoreClient(t, q, clients[q], now, p, victim);
    if RestoredKey(q, clients[q], now, p).Some? {
      var j := RestoredKey(q, clients[q], now, p).value;
      var t1 := Room(t, j, now, p, victim);
      forall k | EndOf(t', k) != 0 ensures EndOf(t', k) == FileEnd(clients, k) {
        RoomEnds(t, j, now, p, victim, k);
        if Find(t1, j).Some? {
          PutFinds(t1, j, ShardOf(t1, j)[j := Entry(0, now, clients[q].until, Max1(clients[q].offenses))], t1.count, k);
        }
      }
    }
  }

  lemma NamesItsKey(q: Prefix, s: Saved, now: nat, p: Params)
    requires KeyOf(q.addr) == q.addr && q == KeyPrefix(q.addr)
    ensures var k := RestoredKey(q, s, now, p); k.Some? ==> k.value == q.addr
  {
    hide Masked, Exempt;
    KeyReadsBack(q.addr);
    KeyUnmapped(q.addr);
  }

  lemma {:induction false} RestoreClientsFrom(clients: map<Prefix, Saved>, qs: seq<Prefix>, victims: seq<Option<Addr>>,
                                              now: nat, p: Params)
    requires |victims| == |qs|
    requires forall q :: q in qs ==> q in clients && KeyOf(q.addr) == q.addr && q == KeyPrefix(q.addr)
    ensures FromFile(RestoreClients(EMPTY, clients, qs, victims, now, p), clients)
    decreases |qs|
  {
    hide FromFile, RestoreClient, KeyOf, KeyPrefix, EmptyShards;
    if qs == [] {
      EmptyFrom(clients);
    } else {
      var n := |qs| - 1;
      assert forall i :: 0 <= i < n ==> qs[..n][i] == qs[i];
      RestoreClientsFrom(clients, qs[..n], victims[..n], now, p);
      RestoreClientFrom(RestoreClients(EMPTY, clients, qs[..n], victims[..n], now, p), clients, qs[n], now, p, victims[n]);
    }
  }

  lemma EmptyFrom(clients: map<Prefix, Saved>)
    ensures FromFile(EMPTY, clients)
  {
    hide Shard, EmptyShards;
    assert forall k :: EndOf(EMPTY, k) == 0;
  }

  /** Whatever the parameters let in and whoever was evicted, a loaded table holds no ban its file does not. */
  lemma LoadedCovers(snap: Snapshot, cs: seq<Prefix>, victims: seq<Option<Addr>>, rs: seq<Prefix>, now: nat, p: Params)
    requires FileOk(snap) && ListsKeys(cs, snap.clients) && ListsKeys(rs, snap.ranges) && |victims| == |cs|
    ensures Covers(Loaded(snap, cs, victims, rs, now, p), snap, now)
  {
    hide Shard, KeyOf, KeyPrefix, RestoreClients, RestoreRanges, IsRange, Max1;
    RestoreClientsFrom(snap.clients, cs, victims, now, p);
    var t := RestoreClients(EMPTY, snap.clients, cs, victims, now, p);
    ListingSize(rs, snap.ranges.Keys);
    RangesRestored(t, snap.ranges, rs, now);
    assert forall k :: EndOf(Loaded(snap, cs, victims, rs, now, p), k) == EndOf(t, k);
  }

  /** With room for everyone and no one newly exempt, a loaded table's bans in force are exactly its file's. */
  lemma RestoredMatches(snap: Snapshot, cs: seq<Prefix>, rs: seq<Prefix>, now: nat, p: Params)
    requires FileOk(snap) && Fits(snap, p) && p.max >= 0 && ListsKeys(cs, snap.clients) && ListsKeys(rs, snap.ranges)
    ensures Matches(Restored(snap, cs, rs, now, p), snap, now)
  {
    hide Shard, KeyOf, KeyPrefix, Loaded, Restored, Fits, FileOk, Max1;
    forall k | KeyOf(k) == k
      ensures Live(EndOf(Restored(snap, cs, rs, now, p), k), now) == Live(FileEnd(snap.clients, k), now)
    {
      ClientAfterRestart(snap, cs, rs, now, p, k);
    }
    RangesAfterRestart(snap, cs, rs, now, p);
  }

  lemma SameRangeAnswer(a: map<Prefix, RangeBan>, b: map<Prefix, RangeBan>, ip: Addr, at: nat)
    requires forall q :: Live(if q in a then a[q].until else 0, at) == Live(if q in b then b[q].until else 0, at)
    ensures RangeUntil(a, ip, at) == RangeUntil(b, ip, at)
  {
    hide Contains;
    forall u ensures u in Ends(a, ip, at) <==> u in Ends(b, ip, at) {
      if u in Ends(b, ip, at) {
        var q :| q in b && b[q].until > at && Contains(q, ip) && b[q].until == u;
        assert q in a && a[q].until == u;
      }
      if u in Ends(a, ip, at) {
        var q :| q in a && a[q].until > at && Contains(q, ip) && a[q].until == u;
        assert q in b && b[q].until == u;
      }
    }
    assert Ends(a, ip, at) == Ends(b, ip, at);
  }

  /** A restart from a file that matches the table changes no answer to "is this address banned, and for how
    * much longer", then or later, provided no saved client has become exempt and everyone fits. */
  lemma RestartInvisible(t: Table, snap: Snapshot, cs: seq<Prefix>, rs: seq<Prefix>, now: nat, later: nat, p: Params,
                         ip: Addr, at: nat)
    requires |t.shards| == SHARDS && Matches(t, snap, now) && FileOk(snap) && Fits(snap, p) && p.max >= 0
    requires ListsKeys(cs, snap.clients) && ListsKeys(rs, snap.ranges) && now <= later <= at < BAN_FOREVER
    ensures BannedLeft(Restored(snap, cs, rs, later, p), p, ip, at) == BannedLeft(t, p, ip, at)
  {
    hide Shard, KeyOf, Exempt, Restored, RangeUntil, Unmap, FileOk, Fits, KeyPrefix;
    var r := Restored(snap, cs, rs, later, p);
    var k := KeyOf(ip);
    KeyOfKey(ip);
    ClientAfterRestart(snap, cs, rs, later, p, k);
    RangesAfterRestart(snap, cs, rs, later, p);
    assert Live(EndOf(t, k), now) == Live(FileEnd(snap.clients, k), now);
    forall q ensures Live(if q in r.ranges then r.ranges[q].until else 0, at)
                     == Live(if q in t.ranges then t.ranges[q].until else 0, at)
    {
      assert Live(RangeEnd(t, q), now) == Live(FileRangeEnd(snap.ranges, q), now);
    }
    SameRangeAnswer(r.ranges, t.ranges, Unmap(ip), at);
  }

  /** A snapshot matches the table it was taken of. */
  lemma SnapshotMatches(t: Table, now: nat)
    requires Valid(t)
    ensures Matches(t, SnapshotOf(t, now), now)
  {
    hide Shard, Total, IsRange, SavedClients, KeyOf, KeyPrefix;
    var snap := SnapshotOf(t, now);
    forall k | KeyOf(k) == k ensures Live(EndOf(t, k), now) == Live(FileEnd(snap.clients, k), now) {
      SnapshotExact(t, now, k);
      EntryOkAt(t, k);
    }
  }

  lemma EntryOkAt(t: Table, k: Addr)
    requires Valid(t)
    ensures Find(t, k).Some? ==> EntryOk(Find(t, k).value)
  {
    hide Total, IsRange, KeyOf;
    assert ShardOk(t.shards[Shard(k)], Shard(k));
  }

  /** Offence counts survive too, unless the last ban ended longer ago than the longest cooldown. */
  lemma OffencesSurvive(t: Table, now: nat, cs: seq<Prefix>, rs: seq<Prefix>, later: nat, p: Params, k: Addr)
    requires Valid(t) && KeyOf(k) == k && Find(t, k).Some? && Find(t, k).value.offenses > 0
    requires var snap := SnapshotOf(t, now); Fits(snap, p) && ListsKeys(cs, snap.clients) && ListsKeys(rs, snap.ranges)
    ensures var e := Find(t, k).value;
            Find(Restored(SnapshotOf(t, now), cs, rs, later, p), k)
            == if e.until == BAN_FOREVER || later - e.until <= p.max
               then Some(Entry(0, later, e.until, e.offenses)) else None
  {
    hide Shard, Total, IsRange, SnapshotOf, KeyOf, Exempt, Restored;
    SnapshotOk(t, now);
    SnapshotExact(t, now, k);
    ClientAfterRestart(SnapshotOf(t, now), cs, rs, later, p, k);
  }

  /** Of the ranges exactly those still running come back, with their ends and their offences. */
  lemma RangesSurvive(t: Table, now: nat, cs: seq<Prefix>, rs: seq<Prefix>, later: nat, p: Params)
    requires Valid(t) && now <= later
    requires var snap := SnapshotOf(t, now); ListsKeys(cs, snap.clients) && ListsKeys(rs, snap.ranges)
    ensures var r := Restored(SnapshotOf(t, now), cs, rs, later, p);
            forall q :: (q in r.ranges <==> q in t.ranges && t.ranges[q].until > later)
                        && (q in r.ranges ==> r.ranges[q].until == t.ranges[q].until &&
                                              r.ranges[q].offenses == if t.ranges[q].offenses == 0 then 1 else t.ranges[q].offenses)
  {
    hide Shard, Total, IsRange, KeyOf, Restored, SavedClients;
    SnapshotOk(t, now);
    RangesAfterRestart(SnapshotOf(t, now), cs, rs, later, p);
  }
}
