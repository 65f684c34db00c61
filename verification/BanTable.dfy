/** The ban registry's table and its operations (abuse.go, ranges.go). Times are nanoseconds. */
module BanTable {
  import opened Results
  import opened Addresses

  datatype Entry = Entry(strikes: int, windowStart: int, until: int, offenses: nat)

  datatype RangeBan = RangeBan(until: int, offenses: nat)

  datatype Table = Table(shards: seq<map<Addr, Entry>>, count: int, ranges: map<Prefix, RangeBan>, rangeCount: int)

  datatype Params = Params(threshold: int, window: int, base: int, max: int, maxEntries: int, exempt: seq<Prefix>)

  const INT64 := 0x8000_0000_0000_0000
  const BAN_FOREVER := INT64 - 1
  const MAX_RANGES := 4096

  /** int64 arithmetic wraps around. */
  function Wrap64(n: int): (w: int)
    ensures -INT64 <= w < INT64
  {
    (n + INT64) % (2 * INT64) - INT64
  }

  predicate Exempt(p: Params, ip: Addr) {
    exists i :: 0 <= i < |p.exempt| && Contains(p.exempt[i], ip)
  }

  /** The key to track ip under, unless it is exempt. */
  function Trackable(p: Params, ip: Addr): Option<Addr> {
    if Exempt(p, Unmap(ip)) then None else Some(KeyOf(ip))
  }

  // ----- escalation -----

  function Pow2(n: nat): (p: nat)
    ensures p > 0
  {
    if n == 0 then 1 else 2 * Pow2(n - 1)
  }

  /** The cooldown after `left` more doublings of d. */
  function CooldownFrom(d: int, left: nat, max: int): int
    decreases left
  {
    if left == 0 then (if d > max then max else d)
    else
      var twice := Wrap64(2 * d);
      if twice >= max then max else CooldownFrom(twice, left - 1, max)
  }

  /** How long the k-th ban of a client lasts. */
  function Cooldown(p: Params, k: nat): int
    requires k > 0
  {
    CooldownFrom(p.base, k - 1, p.max)
  }

  function Min(a: int, b: int): int { if a <= b then a else b }

  /** The first doubling of d to reach max stays within int64. */
  predicate DoublesSafely(d: int, max: int)
    requires d > 0
    decreases if d < max then max - d else 0
  {
    if 2 * d >= max then 2 * d < INT64 else DoublesSafely(2 * d, max)
  }

  lemma Pow2Of0()
    ensures Pow2(0) == 1
  {
  }

  lemma WrapSmall(n: int)
    requires -INT64 <= n < INT64
    ensures Wrap64(n) == n
  {
  }

  lemma WrapLarge(n: int)
    requires INT64 <= n < 2 * INT64
    ensures Wrap64(n) == n - 2 * INT64
  {
  }

  lemma Twice(d: int, j: nat)
    requires j > 0
    ensures d * Pow2(j) == (2 * d) * Pow2(j - 1)
  {
    var x := Pow2(j - 1);
    assert Pow2(j) == 2 * x;
    assert d * (2 * x) == (2 * d) * x;
  }

  lemma AtLeast(d: int, p: nat)
    requires d > 0 && p > 0
    ensures d * p >= d
  {
    assert d * (p - 1) >= 0;
    assert d * p == d * (p - 1) + d;
  }

  lemma {:induction false} DoublingExact(d: int, max: int, j: nat)
    requires 0 < d <= max < INT64 && DoublesSafely(d, max)
    ensures CooldownFrom(d, j, max) == Min(d * Pow2(j), max)
    decreases j
  {
    hide Pow2, Wrap64;
    Pow2Of0();
    if j > 0 {
      Twice(d, j);
      if 2 * d >= max {
        WrapSmall(2 * d);
        AtLeast(2 * d, Pow2(j - 1));
      } else {
        WrapSmall(2 * d);
        DoublingExact(2 * d, max, j - 1);
      }
    }
  }

  /** Otherwise the doubling that overflows gives a cooldown that is not the longest one. */
  lemma {:induction false} DoublingOverflows(d: int, max: int) returns (j: nat)
    requires 0 < d <= max < INT64 && !DoublesSafely(d, max)
    ensures CooldownFrom(d, j, max) != Min(d * Pow2(j), max)
    decreases max - d
  {
    hide Pow2, Wrap64;
    Pow2Of0();
    if 2 * d >= max {
      WrapLarge(2 * d);
      Twice(d, 1);
      AtLeast(2 * d, Pow2(0));
      OneDoubling(d, max);
      return 1;
    } else {
      WrapSmall(2 * d);
      var i := DoublingOverflows(2 * d, max);
      Twice(d, i + 1);
      return i + 1;
    }
  }

  lemma OneDoubling(d: int, max: int)
    requires Wrap64(2 * d) < max
    ensures CooldownFrom(d, 1, max) == Wrap64(2 * d)
  {
    hide Wrap64;
    assert CooldownFrom(Wrap64(2 * d), 0, max) == Wrap64(2 * d);
  }

  /** The k-th ban of a client lasts min(base * 2^(k-1), max), for every k, exactly when the first doubling
    * that reaches max does not overflow. */
  lemma KthBanExact(p: Params)
    requires 0 < p.base <= p.max < INT64
    ensures (forall k :: k > 0 ==> Cooldown(p, k) == Min(p.base * Pow2(k - 1), p.max)) <==> DoublesSafely(p.base, p.max)
  {
    hide Pow2, CooldownFrom, DoublesSafely;
    if DoublesSafely(p.base, p.max) {
      forall k | k > 0 ensures Cooldown(p, k) == Min(p.base * Pow2(k - 1), p.max) {
        DoublingExact(p.base, p.max, k - 1);
      }
    } else {
      var j := DoublingOverflows(p.base, p.max);
      assert Cooldown(p, j + 1) != Min(p.base * Pow2(j + 1 - 1), p.max);
    }
  }

  /** For every longest cooldown up to 2^62 ns only a base of 2^62 ns overflows. */
  lemma {:induction false} SafeUpTo62(d: int, max: int)
    requires 0 < d <= max <= INT64 / 2
    ensures DoublesSafely(d, max) <==> d < INT64 / 2
    decreases max - d
  {
    if 2 * d < max {
      SafeUpTo62(2 * d, max);
    }
  }

  /** With base and max both 2^62 ns the second ban's doubling wraps around: it ends before it began. */
  lemma SecondBanWraps(p: Params)
    requires p.base == p.max == INT64 / 2
    ensures Cooldown(p, 1) == p.max && Cooldown(p, 2) == -INT64 != Min(p.base * Pow2(1), p.max)
    ensures !DoublesSafely(p.base, p.max)
  {
    hide Wrap64, Pow2;
    WrapLarge(2 * p.base);
    OneDoubling(p.base, p.max);
    AtLeast(p.base, Pow2(1));
  }

  // ----- the client table -----

  function ShardOf(t: Table, k: Addr): map<Addr, Entry>
    requires |t.shards| == SHARDS
  {
    t.shards[Shard(k)]
  }

  function Find(t: Table, k: Addr): Option<Entry>
    requires |t.shards| == SHARDS
  {
    if k in ShardOf(t, k) then Some(ShardOf(t, k)[k]) else None
  }

  function Put(t: Table, k: Addr, m: map<Addr, Entry>, count: int): (t': Table)
    requires |t.shards| == SHARDS
    ensures |t'.shards| == SHARDS && t'.ranges == t.ranges && t'.rangeCount == t.rangeCount
  {
    t.(shards := t.shards[Shard(k) := m], count := count)
  }

  function NewEntry(now: nat): Entry { Entry(0, now, 0, 0) }

  /** Make room for k. When the table is full an unbanned entry of the same shard goes, if there is one. */
  function Room(t: Table, k: Addr, now: nat, p: Params, victim: Option<Addr>): (t': Table)
    requires |t.shards| == SHARDS
    ensures |t'.shards| == SHARDS && t'.ranges == t.ranges && t'.rangeCount == t.rangeCount
  {
    var m := ShardOf(t, k);
    if k in m then t
    else if t.count < p.maxEntries then Put(t, k, m[k := NewEntry(now)], t.count + 1)
    else
      match victim
      case None => t
      case Some(v) => Put(t, k, (m - {v})[k := NewEntry(now)], t.count)
  }

  /** The eviction's choice: any unbanned entry of k's shard, when one is needed and there is one. */
  predicate Fair(t: Table, k: Addr, now: nat, p: Params, victim: Option<Addr>)
    requires |t.shards| == SHARDS
  {
    var m := ShardOf(t, k);
    if k in m || t.count < p.maxEntries then victim.None?
    else
      match victim
      case Some(v) => v in m && m[v].until <= now
      case None => forall v :: v in m ==> m[v].until > now
  }

  function Escalated(e: Entry, now: nat, p: Params): Entry {
    Entry(0, now, Wrap64(now + Cooldown(p, e.offenses + 1)), e.offenses + 1)
  }

  function Struck(e: Entry, weight: int, now: nat, p: Params): Entry {
    if e.until > now then e
    else
      var e := if now - e.windowStart > p.window then e.(windowStart := now, strikes := 0) else e;
      var e := e.(strikes := e.strikes + weight);
      if e.strikes < p.threshold then e else Escalated(e, now, p)
  }

  function BannedNow(e: Entry, now: nat, p: Params): Entry {
    if e.until > now then e else Escalated(e, now, p)
  }

  /** An administrator's ban: an offence unless it changes an active one; d <= 0 is for ever. */
  function SetEntry(e: Entry, d: int, now: nat): Entry {
    Entry(0, now, if d <= 0 then BAN_FOREVER else Wrap64(now + d), if e.until <= now then e.offenses + 1 else e.offenses)
  }

  predicate Stale(e: Entry, now: nat, p: Params) {
    && e.until <= now && now - e.windowStart > p.window
    && (e.offenses == 0 || now - e.until > p.max)
  }

  function SweptShard(m: map<Addr, Entry>, now: nat, p: Params): map<Addr, Entry> {
    map k | k in m && !Stale(m[k], now, p) :: m[k]
  }

  function Swept(shards: seq<map<Addr, Entry>>, now: nat, p: Params): (r: seq<map<Addr, Entry>>)
    ensures |r| == |shards| && forall i :: 0 <= i < |shards| ==> r[i] == SweptShard(shards[i], now, p)
  {
    if shards == [] then [] else [SweptShard(shards[0], now, p)] + Swept(shards[1..], now, p)
  }

  function Total(shards: seq<map<Addr, Entry>>): nat {
    if shards == [] then 0 else |shards[0]| + Total(shards[1..])
  }

  function SetRange(t: Table, q: Prefix, d: int, now: nat): (t': Table)
    ensures t'.shards == t.shards && t'.count == t.count
  {
    if q !in t.ranges && |t.ranges| >= MAX_RANGES then t
    else
      var b := if q in t.ranges then t.ranges[q] else RangeBan(0, 0);
      var until := if d <= 0 then BAN_FOREVER else Wrap64(now + d);
      t.(ranges := t.ranges[q := RangeBan(until, if b.until <= now then b.offenses + 1 else b.offenses)],
         rangeCount := t.rangeCount + if q in t.ranges then 0 else 1)
  }

  function LiveRanges(ranges: map<Prefix, RangeBan>, now: nat): map<Prefix, RangeBan> {
    map q | q in ranges && ranges[q].until > now :: ranges[q]
  }

  // ----- operations -----

  datatype Op =
    | Strike(ip: Addr, weight: int, now: nat, p: Params, victim: Option<Addr>)
    | BanNow(ip: Addr, now: nat, p: Params, victim: Option<Addr>)
    | BanFor(ip: Addr, d: int, now: nat, p: Params, victim: Option<Addr>)
    | Unban(ip: Addr)
    | Sweep(now: nat, p: Params)
    | BanRange(q: Prefix, d: int, now: nat)
    | UnbanRange(q: Prefix)
    | SweepRanges(now: nat)

  predicate Touches(op: Op) { op.Strike? || op.BanNow? || op.BanFor? }

  /** The entry an operation leaves for its client. */
  function Changed(op: Op, e: Entry): Entry
    requires Touches(op)
  {
    match op
    case Strike(_, weight, now, p, _) => Struck(e, weight, now, p)
    case BanNow(_, now, p, _) => BannedNow(e, now, p)
    case BanFor(_, d, now, _, _) => SetEntry(e, d, now)
  }

  predicate Enabled(t: Table, op: Op)
    requires |t.shards| == SHARDS
  {
    match op
    case Strike(ip, weight, now, p, victim) =>
      weight > 0 && Trackable(p, ip).Some? && Fair(t, KeyOf(ip), now, p, victim)
    case BanNow(ip, now, p, victim) => Trackable(p, ip).Some? && Fair(t, KeyOf(ip), now, p, victim)
    case BanFor(ip, d, now, p, victim) => Trackable(p, ip).Some? && Fair(t, KeyOf(ip), now, p, victim)
    case BanRange(q, _, _) => IsRange(q)
    case _ => true
  }

  /** A block as the administrator's request was normalised to. */
  predicate IsRange(q: Prefix) { TargetOf(q) == Ok(Target(q, false)) }

  function Touch(t: Table, op: Op): (t': Table)
    requires |t.shards| == SHARDS && Touches(op)
    ensures |t'.shards| == SHARDS && t'.ranges == t.ranges && t'.rangeCount == t.rangeCount
  {
    hide Shard, Trackable, Fair, Changed;
    var k := KeyOf(op.ip);
    var t' := Room(t, k, op.now, op.p, op.victim);
    match Find(t', k)
    case None => t'
    case Some(e) => Put(t', k, ShardOf(t', k)[k := Changed(op, e)], t'.count)
  }

  /** One registry operation; one that is refused changes nothing. */
  function Apply(t: Table, op: Op): (t': Table)
    requires |t.shards| == SHARDS
    ensures |t'.shards| == SHARDS
  {
    if !Enabled(t, op) then t
    else
      match op
      case Unban(ip) =>
        var k := KeyOf(ip);
        if k in ShardOf(t, k) then Put(t, k, ShardOf(t, k) - {k}, t.count - 1) else t
      case Sweep(now, p) =>
        t.(shards := Swept(t.shards, now, p), count := t.count - (Total(t.shards) - Total(Swept(t.shards, now, p))))
      case BanRange(q, d, now) => SetRange(t, q, d, now)
      case UnbanRange(q) =>
        if q in t.ranges then t.(ranges := t.ranges - {q}, rangeCount := t.rangeCount - 1) else t
      case SweepRanges(now) =>
        t.(ranges := LiveRanges(t.ranges, now),
           rangeCount := t.rangeCount - (|t.ranges| - |LiveRanges(t.ranges, now)|))
      case _ => Touch(t, op)
  }

  function Run(t: Table, ops: seq<Op>): (t': Table)
    requires |t.shards| == SHARDS
    ensures |t'.shards| == SHARDS
    decreases |ops|
  {
    if ops == [] then t else Run(Apply(t, ops[0]), ops[1..])
  }

  // ----- what every operation keeps -----

  predicate EntryOk(e: Entry) { e.offenses == 0 ==> e.until == 0 }

  ghost predicate ShardOk(m: map<Addr, Entry>, i: nat) {
    forall k :: k in m ==> Shard(k) == i && KeyOf(k) == k && EntryOk(m[k])
  }

  /** Each key sits in its own shard, the count is the number of entries, and the range count that of ranges. */
  ghost predicate Valid(t: Table) {
    && |t.shards| == SHARDS
    && (forall i :: 0 <= i < SHARDS ==> ShardOk(t.shards[i], i))
    && t.count == Total(t.shards)
    && t.rangeCount == |t.ranges| <= MAX_RANGES
    && (forall q :: q in t.ranges ==> IsRange(q))
  }

  lemma {:induction false} TotalUpdate(shards: seq<map<Addr, Entry>>, i: nat, m: map<Addr, Entry>)
    requires i < |shards|
    ensures Total(shards[i := m]) == Total(shards) - |shards[i]| + |m|
  {
    if i == 0 {
      assert shards[0 := m][1..] == shards[1..];
    } else {
      assert shards[i := m][1..] == shards[1..][i - 1 := m];
      TotalUpdate(shards[1..], i - 1, m);
    }
  }

  lemma PutValid(t: Table, k: Addr, m: map<Addr, Entry>, count: int)
    requires Valid(t) && ShardOk(m, Shard(k)) && count == t.count - |ShardOf(t, k)| + |m|
    ensures Valid(Put(t, k, m, count))
  {
    hide Shard, Total, IsRange, KeyOf, ShardOk;
    TotalUpdate(t.shards, Shard(k), m);
  }

  lemma SizeWithout(m: map<Addr, Entry>, v: Addr)
    requires v in m
    ensures |m - {v}| == |m| - 1
  {
    assert (m - {v}).Keys == m.Keys - {v};
  }

  lemma SizeWith(m: map<Addr, Entry>, k: Addr, e: Entry)
    ensures |m[k := e]| == if k in m then |m| else |m| + 1
  {
    assert m[k := e].Keys == m.Keys + {k};
  }

  lemma ShardWith(m: map<Addr, Entry>, i: nat, k: Addr, e: Entry)
    requires ShardOk(m, i) && Shard(k) == i && KeyOf(k) == k && EntryOk(e)
    ensures ShardOk(m[k := e], i)
  {
    hide Shard, KeyOf;
  }

  lemma ShardWithout(m: map<Addr, Entry>, i: nat, k: Addr)
    requires ShardOk(m, i)
    ensures ShardOk(m - {k}, i)
  {
    hide Shard, KeyOf;
  }

  lemma RoomValid(t: Table, k: Addr, now: nat, p: Params, victim: Option<Addr>)
    requires Valid(t) && KeyOf(k) == k && Fair(t, k, now, p, victim)
    ensures Valid(Room(t, k, now, p, victim))
  {
    hide Shard, Total, IsRange, KeyOf, ShardOk, Put;
    var m := ShardOf(t, k);
    if k !in m {
      assert ShardOk(m, Shard(k));
      SizeWith(m, k, NewEntry(now));
      ShardWith(m, Shard(k), k, NewEntry(now));
      if t.count < p.maxEntries {
        PutValid(t, k, m[k := NewEntry(now)], t.count + 1);
      } else if victim.Some? {
        SizeWithout(m, victim.value);
        SizeWith(m - {victim.value}, k, NewEntry(now));
        ShardWithout(m, Shard(k), victim.value);
        ShardWith(m - {victim.value}, Shard(k), k, NewEntry(now));
        PutValid(t, k, (m - {victim.value})[k := NewEntry(now)], t.count);
      }
    }
  }

  lemma ChangedOk(op: Op, e: Entry)
    requires Touches(op) && EntryOk(e)
    ensures EntryOk(Changed(op, e))
  {
  }

  lemma FoundOk(t: Table, k: Addr)
    requires Valid(t)
    ensures ShardOk(ShardOf(t, k), Shard(k)) && (Find(t, k).Some? ==> EntryOk(Find(t, k).value))
  {
    hide Shard, Total, IsRange, KeyOf;
  }

  lemma TouchValid(t: Table, op: Op)
    requires Valid(t) && Touches(op) && Enabled(t, op)
    ensures Valid(Touch(t, op))
  {
    hide Shard, Total, IsRange, KeyOf, Room, Changed, ShardOk, Put;
    var k := KeyOf(op.ip);
    KeyOfKey(op.ip);
    RoomValid(t, k, op.now, op.p, op.victim);
    var t' := Room(t, k, op.now, op.p, op.victim);
    var m := ShardOf(t', k);
    if k in m {
      assert ShardOk(m, Shard(k)) && EntryOk(m[k]) by { FoundOk(t', k); }
      ChangedOk(op, m[k]);
      SizeWith(m, k, Changed(op, m[k]));
      ShardWith(m, Shard(k), k, Changed(op, m[k]));
      PutValid(t', k, m[k := Changed(op, m[k])], t'.count);
    }
  }

  lemma UnbanValid(t: Table, ip: Addr)
    requires Valid(t)
    ensures Valid(Apply(t, Unban(ip)))
  {
    hide Shard, Total, IsRange, KeyOf, ShardOk, Put, Touch;
    var k := KeyOf(ip);
    if k in ShardOf(t, k) {
      FoundOk(t, k);
      SizeWithout(ShardOf(t, k), k);
      ShardWithout(ShardOf(t, k), Shard(k), k);
      PutValid(t, k, ShardOf(t, k) - {k}, t.count - 1);
    }
  }

  lemma BanRangeValid(t: Table, q: Prefix, d: int, now: nat)
    requires Valid(t) && IsRange(q)
    ensures Valid(SetRange(t, q, d, now))
  {
    hide Shard, Total, IsRange, KeyOf, Wrap64;
    var t' := SetRange(t, q, d, now);
    assert t'.ranges.Keys == if t' == t then t.ranges.Keys else t.ranges.Keys + {q};
  }

  lemma UnbanRangeValid(t: Table, q: Prefix)
    requires Valid(t)
    ensures Valid(Apply(t, UnbanRange(q)))
  {
    hide Shard, Total, IsRange, KeyOf, Touch, Swept, SetRange, LiveRanges;
    assert (t.ranges - {q}).Keys == t.ranges.Keys - {q};
  }

  lemma SweepRangesValid(t: Table, now: nat)
    requires Valid(t)
    ensures Valid(Apply(t, SweepRanges(now)))
  {
    hide Shard, Total, IsRange, KeyOf, Touch, Swept, SetRange;
    SubsetSmaller(LiveRanges(t.ranges, now).Keys, t.ranges.Keys);
  }

  lemma {:induction false} SubsetSmaller<T>(a: set<T>, b: set<T>)
    requires a <= b
    ensures |a| <= |b|
  {
    assert b == a + (b - a);
  }

  /** Every operation keeps the table's bookkeeping. */
  lemma ApplyValid(t: Table, op: Op)
    requires Valid(t)
    ensures Valid(Apply(t, op))
  {
    hide Shard, Total, IsRange, KeyOf, Fair, Room, Touch, Trackable;
    if Enabled(t, op) {
      match op
      case Unban(ip) => UnbanValid(t, ip);
      case Sweep(now, p) =>
      case BanRange(q, d, now) => BanRangeValid(t, q, d, now);
      case UnbanRange(q) => UnbanRangeValid(t, q);
      case SweepRanges(now) => SweepRangesValid(t, now);
      case _ => TouchValid(t, op);
    }
  }

  lemma {:induction false} RunValid(t: Table, ops: seq<Op>)
    requires Valid(t)
    ensures Valid(Run(t, ops))
    decreases |ops|
  {
    hide ShardOk, Total, Apply;
    if ops != [] {
      ApplyValid(t, ops[0]);
      RunValid(Apply(t, ops[0]), ops[1..]);
    }
  }

  lemma TouchCount(t: Table, op: Op)
    requires |t.shards| == SHARDS && Touches(op)
    ensures Touch(t, op).count > t.count ==> Touch(t, op).count == t.count + 1 <= op.p.maxEntries
  {
    hide Shard, Changed;
  }

  /** No operation grows the table past the limit in force. */
  lemma NeverPastLimit(t: Table, op: Op)
    requires Valid(t)
    ensures Apply(t, op).count > t.count ==>
              Touches(op) && Apply(t, op).count == t.count + 1 <= op.p.maxEntries
  {
    hide Shard, Fair, Trackable, Total, Touch, SetRange, ShardOk;
    if op.Sweep? {
      SweepShrinks(t.shards, op.now, op.p);
    } else if Touches(op) {
      TouchCount(t, op);
    }
  }

  lemma {:induction false} SweepShrinks(shards: seq<map<Addr, Entry>>, now: nat, p: Params)
    ensures Total(Swept(shards, now, p)) <= Total(shards)
  {
    if shards != [] {
      SubsetSmaller(SweptShard(shards[0], now, p).Keys, shards[0].Keys);
      SweepShrinks(shards[1..], now, p);
      assert Swept(shards, now, p)[1..] == Swept(shards[1..], now, p);
    }
  }

  // ----- bans last -----

  /** Not an administrator's unban or new ban of k itself. Strikes, ban paths, evictions, sweeps and every order
    * about someone else spare k. */
  predicate Spares(op: Op, k: Addr) {
    (op.Unban? || op.BanFor?) ==> KeyOf(op.ip) != k
  }

  /** Not an administrator's unban or new ban of q itself. */
  predicate SparesRange(op: Op, q: Prefix) {
    (op.BanRange? || op.UnbanRange?) ==> op.q != q
  }

  /** op happens before `until`, if it looks at the clients' clocks at all. */
  predicate ClientsBefore(op: Op, until: int) {
    (Touches(op) || op.Sweep?) ==> op.now < until
  }

  predicate RangesBefore(op: Op, until: int) {
    op.SweepRanges? ==> op.now < until
  }

  function EndOf(t: Table, k: Addr): int
    requires |t.shards| == SHARDS
  {
    if Find(t, k).Some? then Find(t, k).value.until else 0
  }

  function RangeEnd(t: Table, q: Prefix): int {
    if q in t.ranges then t.ranges[q].until else 0
  }

  lemma PutFinds(t: Table, j: Addr, m: map<Addr, Entry>, count: int, k: Addr)
    requires |t.shards| == SHARDS
    ensures Find(Put(t, j, m, count), k)
            == if Shard(k) == Shard(j) then (if k in m then Some(m[k]) else None) else Find(t, k)
  {
    hide Shard;
  }

  /** Making room loses no unfinished ban. */
  lemma RoomFinds(t: Table, j: Addr, now: nat, p: Params, victim: Option<Addr>, k: Addr)
    requires |t.shards| == SHARDS && Fair(t, j, now, p, victim) && Find(t, k).Some? && Find(t, k).value.until > now
    ensures Find(Room(t, j, now, p, victim), k) == Find(t, k)
  {
    hide Shard, Put;
    var m := ShardOf(t, j);
    if j !in m {
      PutFinds(t, j, m[j := NewEntry(now)], t.count + 1, k);
      if victim.Some? {
        PutFinds(t, j, (m - {victim.value})[j := NewEntry(now)], t.count, k);
      }
    }
  }

  lemma TouchFinds(t: Table, op: Op, k: Addr)
    requires |t.shards| == SHARDS && Touches(op) && Enabled(t, op)
    requires Find(t, k).Some? && Find(t, k).value.until > op.now
    ensures Find(Touch(t, op), k)
            == Some(if k == KeyOf(op.ip) then Changed(op, Find(t, k).value) else Find(t, k).value)
  {
    hide Shard, Trackable, Changed, Room, Put, Fair;
    var j := KeyOf(op.ip);
    RoomFinds(t, j, op.now, op.p, op.victim, k);
    var t' := Room(t, j, op.now, op.p, op.victim);
    if j in ShardOf(t', j) {
      PutFinds(t', j, ShardOf(t', j)[j := Changed(op, ShardOf(t', j)[j])], t'.count, k);
    }
  }

  /** Before it ends, only an unban or a new ban of that very client shortens, lengthens or removes a ban. */
  lemma SparedBanStays(t: Table, op: Op, k: Addr)
    requires Valid(t) && Spares(op, k) && Find(t, k).Some? && ClientsBefore(op, Find(t, k).value.until)
    ensures Find(Apply(t, op), k).Some?
    ensures Find(Apply(t, op), k).value.until == Find(t, k).value.until
    ensures Find(Apply(t, op), k).value.offenses == Find(t, k).value.offenses
  {
    hide Shard, Total, Touch, Fair, Trackable, KeyOf, ShardOk, IsRange;
    if Enabled(t, op) {
      if Touches(op) {
        TouchFinds(t, op, k);
      } else if op.Unban? {
        UnbanForgets(t, op.ip, k);
      }
    }
  }

  lemma SparedRangeStays(t: Table, op: Op, q: Prefix)
    requires |t.shards| == SHARDS && SparesRange(op, q) && q in t.ranges && RangesBefore(op, t.ranges[q].until)
    ensures q in Apply(t, op).ranges && Apply(t, op).ranges[q] == t.ranges[q]
  {
    hide Shard, Total, Fair, Trackable, Changed, KeyOf;
  }

  /** A ban outlives every run that holds no unban or new ban of that client, whatever happens to others: strikes,
    * evictions, sweeps, and an administrator's orders about other clients and any ranges. */
  lemma {:induction false} BanOutlivesRun(t: Table, ops: seq<Op>, k: Addr)
    requires Valid(t) && Find(t, k).Some?
    requires forall i :: 0 <= i < |ops| ==> Spares(ops[i], k) && ClientsBefore(ops[i], Find(t, k).value.until)
    ensures Find(Run(t, ops), k).Some? && Find(Run(t, ops), k).value.until == Find(t, k).value.until
    decreases |ops|
  {
    hide ShardOk, Total, Apply, Find, KeyOf, Spares, ClientsBefore;
    if ops != [] {
      SparedBanStays(t, ops[0], k);
      ApplyValid(t, ops[0]);
      assert forall i :: 0 <= i < |ops[1..]| ==> ops[1..][i] == ops[i + 1];
      BanOutlivesRun(Apply(t, ops[0]), ops[1..], k);
    }
  }

  lemma {:induction false} RangeOutlivesRun(t: Table, ops: seq<Op>, q: Prefix)
    requires |t.shards| == SHARDS && q in t.ranges
    requires forall i :: 0 <= i < |ops| ==> SparesRange(ops[i], q) && RangesBefore(ops[i], t.ranges[q].until)
    ensures q in Run(t, ops).ranges && Run(t, ops).ranges[q] == t.ranges[q]
    decreases |ops|
  {
    hide Apply, SparesRange, RangesBefore;
    if ops != [] {
      SparedRangeStays(t, ops[0], q);
      assert forall i :: 0 <= i < |ops[1..]| ==> ops[1..][i] == ops[i + 1];
      RangeOutlivesRun(Apply(t, ops[0]), ops[1..], q);
    }
  }

  /** Lifting a ban forgets the client entirely, and no one else. */
  lemma UnbanForgets(t: Table, ip: Addr, k: Addr)
    requires Valid(t)
    ensures Find(Apply(t, Unban(ip)), k) == if k == KeyOf(ip) then None else Find(t, k)
  {
    hide Shard, Total, IsRange, KeyOf;
  }
}
