/** The history as it runs: counters, aggregate and ring, updated in place (history.go, history_log.go). */
module HistoryObjects {
  import opened Addresses
  import opened Tallies
  import opened History
  import Numerals

  // ----- the history as it runs -----

  /** One ban's counters. */
  class BanWindow {
    var requests: int
    var paths: map<string, int>
    var otherPaths: int
    var clients: map<Addr, int>
    var otherClients: int
    var logged: map<Addr, nat>

    constructor ()
      ensures State() == NEW_WINDOW
    {
      requests, paths, otherPaths, clients, otherClients, logged := 0, map[], 0, map[], 0, map[];
    }

    ghost function State(): Window
      reads this
    {
      Window(requests, paths, otherPaths, clients, otherClients, logged)
    }

    method Count(ip: Addr, path: string, n: int)
      modifies this
      ensures State() == Counted(old(State()), ip, path, n)
    {
      requests := requests + n;
      paths, otherPaths := Tally(paths, path, WINDOW_PATHS, n), TallyRest(paths, path, WINDOW_PATHS, otherPaths, n);
      clients, otherClients := Tally(clients, ip, WINDOW_CLIENTS, n),
                               TallyRest(clients, ip, WINDOW_CLIENTS, otherClients, n);
    }

    /** A blocked request: count it, and say whether it is logged by itself. */
    method Hit(ip: Addr, path: string) returns (raw: bool)
      modifies this
      ensures (State(), raw) == LogRaw(Counted(old(State()), ip, path, 1), ip)
    {
      hide Counted;
      Count(ip, path, 1);
      if ip !in logged && |logged| >= WINDOW_CLIENTS * 10 {
        return false;
      }
      var n := if ip in logged then logged[ip] else 0;
      logged := logged[ip := n + 1];
      return n < RAW_PER_BAN;
    }

    /** One aggregated line read back. */
    method ApplyAgg(ip: Addr, count: int, items: seq<(string, int)>)
      modifies this
      ensures State() == Aggregated(old(State()), ip, count, items)
    {
      hide Counted, Tally, TallyRest;
      var itemised := 0;
      var i := 0;
      assert items[0..] == items;
      while i < |items|
        invariant 0 <= i <= |items|
        invariant Itemised(State(), ip, items[i..]) == Itemised(old(State()), ip, items)
        invariant itemised + SumItems(items[i..]) == SumItems(items)
      {
        assert items[i..][1..] == items[i + 1..];
        Count(ip, items[i].0, items[i].1);
        itemised := itemised + items[i].1;
        i := i + 1;
      }
      var rest := count - itemised;
      if rest > 0 {
        requests := requests + rest;
        otherPaths := otherPaths + rest;
        clients, otherClients := Tally(clients, ip, WINDOW_CLIENTS, rest),
                                 TallyRest(clients, ip, WINDOW_CLIENTS, otherClients, rest);
      }
    }
  }

  /** The flood aggregate and the log it is flushed to. */
  class Aggregator {
    var agg: map<AggKey, Agg>
    var log: seq<Event>
    var dropped: nat

    constructor ()
      ensures agg == map[] && log == [] && dropped == 0
    {
      agg, log, dropped := map[], [], 0;
    }

    ghost function With(c: Counts): Live
      reads this
    {
      Live(c, agg, log, dropped)
    }

    method Add(key: AggKey, path: string, ghost c: Counts)
      modifies this
      ensures With(c) == AggAdd(old(With(c)), key, path)
    {
      var v := Agg(0, map[], 0);
      if key in agg {
        v := agg[key];
      } else if |agg| >= AGG_MAX {
        dropped := dropped + 1;
        return;
      }
      agg := agg[key := AggPlus(v, path)];
    }

    /** Write every aggregate to the log, in whatever order the map yields them. */
    method Flush(ghost c: Counts) returns (ghost ops: seq<Op>)
      modifies this
      ensures agg == map[] && With(c) == Run(old(With(c)), ops)
      ensures forall i :: 0 <= i < |ops| ==> ops[i].FlushOne?
    {
      hide Next, Lists;
      ops := [];
      while agg != map[]
        invariant With(c) == Run(old(With(c)), ops)
        invariant forall i :: 0 <= i < |ops| ==> ops[i].FlushOne?
        decreases |agg|
      {
        var key :| key in agg;
        var items := ListPaths(agg[key].paths);
        ghost var op := FlushOne(key, items);
        RunSnoc(old(With(c)), ops, op);
        FlushStep(With(c), key, items);
        Smaller(agg, key);
        log := log + [AggEvent(key.0, key.1, agg[key].n, items)];
        agg := agg - {key};
        ops := ops + [op];
      }
    }
  }

  lemma FlushStep(l: Live, key: AggKey, items: seq<(string, int)>)
    requires key in l.agg && Lists(items, l.agg[key].paths)
    ensures Next(l, FlushOne(key, items))
            == l.(agg := l.agg - {key}, log := l.log + [AggEvent(key.0, key.1, l.agg[key].n, items)])
  {
    hide Lists;
  }

  lemma {:induction false} RunSnoc(l: Live, ops: seq<Op>, op: Op)
    ensures Run(l, ops + [op]) == Next(Run(l, ops), op)
    decreases |ops|
  {
    hide Next;
    if ops == [] {
      assert [op][1..] == [] && ops + [op] == [op];
    } else {
      assert (ops + [op])[1..] == ops[1..] + [op];
      RunSnoc(Next(l, ops[0]), ops[1..], op);
    }
  }

  method ListPaths(m: map<string, int>) returns (items: seq<(string, int)>)
    ensures Lists(items, m)
  {
    items := [];
    var rest := m.Keys;
    while rest != {}
      invariant rest <= m.Keys
      invariant Lists(items, map p | p in m && p !in rest :: m[p])
      decreases rest
    {
      var p :| p in rest;
      ListsSnoc(items, map q | q in m && q !in rest :: m[q], p, m[p]);
      assert (map q | q in m && q !in rest :: m[q])[p := m[p]] == map q | q in m && q !in rest - {p} :: m[q];
      items := items + [(p, m[p])];
      rest := rest - {p};
    }
    assert m == map p | p in m && p !in rest :: m[p];
  }

  lemma ListsSnoc(items: seq<(string, int)>, m: map<string, int>, p: string, n: int)
    requires Lists(items, m) && p !in m
    ensures Lists(items + [(p, n)], m[p := n])
  {
    var after := items + [(p, n)];
    var m' := m[p := n];
    forall x | x in m' ensures exists i :: 0 <= i < |after| && after[i].0 == x {
      if x == p {
        assert after[|items|].0 == x;
      } else {
        var i :| 0 <= i < |items| && items[i].0 == x;
        assert after[i].0 == x;
      }
    }
  }

  // ----- a client's recent requests -----

  const PER_CLIENT := 100

  /** Where the i-th newest of n entries is, when the next one goes to slot `next`. */
  function Slot(next: nat, n: nat, i: nat): (k: nat)
    requires i < n
    ensures k < n
  {
    (Remainder(next - 1 - i, n) + n) % n
  }

  /** entries holds the newest of pushed, in a ring. */
  ghost predicate Newest<T(!new)>(entries: seq<T>, next: nat, pushed: seq<T>) {
    && |entries| == (if |pushed| < PER_CLIENT then |pushed| else PER_CLIENT)
    && next == |pushed| % PER_CLIENT
    && (forall i :: 0 <= i < |entries| ==> entries[Slot(next, |entries|, i)] == pushed[|pushed| - 1 - i])
  }

  function Written<T>(entries: seq<T>, next: nat, e: T): seq<T>
    requires |entries| < PER_CLIENT || next < |entries|
  {
    if |entries| < PER_CLIENT then entries + [e] else entries[next := e]
  }

  lemma PushedAt<T(!new)>(entries: seq<T>, next: nat, pushed: seq<T>, e: T, i: nat)
    requires Newest(entries, next, pushed) && i < |Written(entries, next, e)|
    ensures var entries', next' := Written(entries, next, e), (next + 1) % PER_CLIENT;
            entries'[Slot(next', |entries'|, i)] == (pushed + [e])[|pushed| - i]
  {
    hide Slot;
    var entries', next' := Written(entries, next, e), (next + 1) % PER_CLIENT;
    SlotIs(next', |entries'|, i);
    if i > 0 {
      SlotIs(next, |entries|, i - 1);
      assert entries[Slot(next, |entries|, i - 1)] == pushed[|pushed| - i];
    }
  }

  /** A push displaces the oldest entry of a full ring and nothing else. */
  lemma PushNewest<T(!new)>(entries: seq<T>, next: nat, pushed: seq<T>, e: T)
    requires Newest(entries, next, pushed)
    ensures Newest(Written(entries, next, e), (next + 1) % PER_CLIENT, pushed + [e])
  {
    hide Slot;
    var entries', next' := Written(entries, next, e), (next + 1) % PER_CLIENT;
    forall i | 0 <= i < |entries'|
      ensures entries'[Slot(next', |entries'|, i)] == (pushed + [e])[|pushed + [e]| - 1 - i]
    {
      PushedAt(entries, next, pushed, e, i);
    }
  }

  /** A client's newest hundred requests. */
  class Ring<T(!new)> {
    var entries: seq<T>
    var next: nat
    ghost var pushed: seq<T>

    constructor ()
      ensures Valid() && pushed == []
    {
      entries, next, pushed := [], 0, [];
    }

    ghost predicate Valid()
      reads this
    {
      Newest(entries, next, pushed)
    }

    method Push(e: T)
      requires Valid()
      modifies this
      ensures Valid() && pushed == old(pushed) + [e]
    {
      PushNewest(entries, next, pushed, e);
      if |entries| < PER_CLIENT {
        entries := entries + [e];
      } else {
        entries := entries[next := e];
      }
      next := (next + 1) % PER_CLIENT;
      pushed := pushed + [e];
    }

    method At(i: nat) returns (e: T)
      requires Valid() && i < |entries|
      ensures e == pushed[|pushed| - 1 - i]
    {
      e := entries[Slot(next, |entries|, i)];
    }
  }

  /** Remainder that truncates toward zero. */
  function Remainder(a: int, n: int): (r: int)
    requires n > 0
    ensures -n < r < n
  {
    if a >= 0 then a % n else -((-a) % n)
  }

  /** Counting back from the next slot, around the end of a full ring. */
  lemma SlotIs(next: nat, n: nat, i: nat)
    requires i < n && (if n < PER_CLIENT then next == n else n == PER_CLIENT && next < n)
    ensures Slot(next, n, i) == if next >= 1 + i then next - 1 - i else next - 1 - i + n
  {
    if next >= 1 + i {
      Below(next - 1 - i, n);
    }
  }

  lemma Below(a: nat, n: nat)
    requires a < n
    ensures a % n == a && (a + n) % n == a
  {
    Numerals.DivModOf(n, 0, a);
    Numerals.DivModOf(n, 1, a);
  }
}
