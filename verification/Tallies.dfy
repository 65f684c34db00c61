/** Counting blocked requests in tallies of bounded size (history.go). */
module Tallies {
  import opened Addresses

  // ----- sums over maps -----

  ghost function Sum<K(!new)>(m: map<K, int>): int
    decreases |m|
  {
    if m == map[] then 0
    else
      var k :| k in m;
      Smaller(m, k);
      m[k] + Sum(m - {k})
  }

  lemma Smaller<K, V>(m: map<K, V>, k: K)
    requires k in m
    ensures |m - {k}| == |m| - 1
  {
    assert (m - {k}).Keys == m.Keys - {k};
  }

  lemma {:induction false} SumWithout<K(!new)>(m: map<K, int>, k: K)
    requires k in m
    ensures Sum(m) == m[k] + Sum(m - {k})
    decreases |m|
  {
    var j :| j in m && Sum(m) == m[j] + Sum(m - {j});
    if j != k {
      Smaller(m, j);
      Smaller(m, k);
      SumWithout(m - {j}, k);
      SumWithout(m - {k}, j);
      assert m - {j} - {k} == m - {k} - {j};
    }
  }

  lemma SumAdd<K(!new)>(m: map<K, int>, k: K, n: int)
    ensures Sum(m[k := (if k in m then m[k] else 0) + n]) == Sum(m) + n
  {
    var m' := m[k := (if k in m then m[k] else 0) + n];
    SumWithout(m', k);
    if k in m {
      SumWithout(m, k);
      assert m' - {k} == m - {k};
    } else {
      assert m' - {k} == m;
    }
  }

  // ----- a ban window -----

  const WINDOW_PATHS := 100
  const WINDOW_CLIENTS := 100
  const RAW_PER_BAN := 100
  const AGG_MAX := 50000

  datatype Window = Window(requests: int, paths: map<string, int>, otherPaths: int,
                           clients: map<Addr, int>, otherClients: int, logged: map<Addr, nat>)

  const NEW_WINDOW := Window(0, map[], 0, map[], 0, map[])

  /** A tally of at most max keys; further keys go to the common rest. */
  function Tally<K>(m: map<K, int>, k: K, max: nat, n: int): map<K, int> {
    if k in m || |m| < max then m[k := (if k in m then m[k] else 0) + n] else m
  }

  function TallyRest<K>(m: map<K, int>, k: K, max: nat, other: int, n: int): int {
    if k in m || |m| < max then other else other + n
  }

  lemma TallyConserves<K(!new)>(m: map<K, int>, k: K, max: nat, other: int, n: int)
    ensures Sum(Tally(m, k, max, n)) + TallyRest(m, k, max, other, n) == Sum(m) + other + n
    ensures k in Tally(m, k, max, n) || TallyRest(m, k, max, other, n) == other + n
  {
    SumAdd(m, k, n);
  }

  function Counted(w: Window, ip: Addr, path: string, n: int): Window {
    w.(requests := w.requests + n,
       paths := Tally(w.paths, path, WINDOW_PATHS, n),
       otherPaths := TallyRest(w.paths, path, WINDOW_PATHS, w.otherPaths, n),
       clients := Tally(w.clients, ip, WINDOW_CLIENTS, n),
       otherClients := TallyRest(w.clients, ip, WINDOW_CLIENTS, w.otherClients, n))
  }

  /** Aggregated requests whose paths were not itemised. */
  function CountedRest(w: Window, ip: Addr, n: int): Window {
    w.(requests := w.requests + n, otherPaths := w.otherPaths + n,
       clients := Tally(w.clients, ip, WINDOW_CLIENTS, n),
       otherClients := TallyRest(w.clients, ip, WINDOW_CLIENTS, w.otherClients, n))
  }

  /** The total is what the paths add up to, and what the clients add up to. */
  ghost predicate Balanced(w: Window) {
    w.requests == Sum(w.paths) + w.otherPaths == Sum(w.clients) + w.otherClients
  }

  lemma CountedBalanced(w: Window, ip: Addr, path: string, n: int)
    requires Balanced(w)
    ensures Balanced(Counted(w, ip, path, n)) && Balanced(CountedRest(w, ip, n))
  {
    TallyConserves(w.paths, path, WINDOW_PATHS, w.otherPaths, n);
    TallyConserves(w.clients, ip, WINDOW_CLIENTS, w.otherClients, n);
  }

  function Itemised(w: Window, ip: Addr, items: seq<(string, int)>): (w': Window)
    ensures w'.logged == w.logged
    decreases |items|
  {
    if items == [] then w else Itemised(Counted(w, ip, items[0].0, items[0].1), ip, items[1..])
  }

  function SumItems(items: seq<(string, int)>): int {
    if items == [] then 0 else items[0].1 + SumItems(items[1..])
  }

  lemma {:induction false} ItemisedBalanced(w: Window, ip: Addr, items: seq<(string, int)>)
    ensures Itemised(w, ip, items).requests == w.requests + SumItems(items)
    ensures Balanced(w) ==> Balanced(Itemised(w, ip, items))
    decreases |items|
  {
    if items != [] {
      var w1 := Counted(w, ip, items[0].0, items[0].1);
      if Balanced(w) {
        CountedBalanced(w, ip, items[0].0, items[0].1);
      }
      ItemisedBalanced(w1, ip, items[1..]);
    }
  }

  /** Replaying one aggregated line: its paths one by one, then what is left of its count. */
  function Aggregated(w: Window, ip: Addr, count: int, items: seq<(string, int)>): Window {
    var w := Itemised(w, ip, items);
    if count - SumItems(items) > 0 then CountedRest(w, ip, count - SumItems(items)) else w
  }

  // ----- the aggregate of one client's flood -----

  datatype Agg = Agg(n: int, paths: map<string, int>, other: int)

  function AggPlus(v: Agg, path: string): Agg {
    Agg(v.n + 1, Tally(v.paths, path, WINDOW_PATHS, 1), TallyRest(v.paths, path, WINDOW_PATHS, v.other, 1))
  }

  ghost predicate AggOk(v: Agg) {
    v.n == Sum(v.paths) + v.other && v.n > 0 && v.other >= 0
  }

  lemma AggPlusOk(v: Agg, path: string)
    requires AggOk(v) || v == Agg(0, map[], 0)
    ensures AggOk(AggPlus(v, path))
  {
    TallyConserves(v.paths, path, WINDOW_PATHS, v.other, 1);
  }

  /** The paths of an aggregate, in the order a replay visits them. */
  ghost predicate Lists(items: seq<(string, int)>, m: map<string, int>) {
    && (forall i :: 0 <= i < |items| ==> items[i].0 in m && items[i].1 == m[items[i].0])
    && (forall i, j :: 0 <= i < j < |items| ==> items[i].0 != items[j].0)
    && (forall p :: p in m ==> exists i :: 0 <= i < |items| && items[i].0 == p)
  }

  lemma {:induction false} SumListed(items: seq<(string, int)>, m: map<string, int>)
    requires Lists(items, m)
    ensures SumItems(items) == Sum(m)
    decreases |items|
  {
    if items == [] {
      assert m == map[];
    } else {
      var p, rest := items[0].0, items[1..];
      var m' := m - {p};
      assert forall i :: 0 <= i < |rest| ==> rest[i] == items[i + 1];
      forall x | x in m' ensures exists i :: 0 <= i < |rest| && rest[i].0 == x {
        var i :| 0 <= i < |items| && items[i].0 == x;
        assert rest[i - 1].0 == x;
      }
      SumListed(rest, m');
      SumWithout(m, p);
    }
  }
}
