/** What a replay of the request log restores of each ban's lists of paths and clients (history.go, history_log.go). */
module HistoryItems {
  import opened Addresses
  import opened Tallies
  import opened History
  import HistoryRuns

  function At<K>(m: map<K, int>, k: K): int { if k in m then m[k] else 0 }

  lemma SmallerMap<K>(m: map<K, int>, l: map<K, int>, k: K)
    requires m.Keys <= l.Keys && k in l
    ensures k !in m ==> |m| < |l|
  {
    if k !in m {
      SubsetSize(m.Keys + {k}, l.Keys);
    }
  }

  lemma SubsetSize<K>(a: set<K>, b: set<K>)
    requires a <= b
    ensures |a| <= |b|
  {
    assert b == a + (b - a);
  }

  /** A tally whose keys stay among those of another within the limit counts every one of them. */
  lemma TallyWithin<K>(m: map<K, int>, l: map<K, int>, k: K, max: nat, other: int, n: int)
    requires m.Keys <= l.Keys && k in l && |l| <= max
    ensures Tally(m, k, max, n) == m[k := At(m, k) + n] && TallyRest(m, k, max, other, n) == other
  {
    SmallerMap(m, l, k);
  }

  /** A tally that sends nothing to its rest counts the key. */
  lemma TallyListed<K>(m: map<K, int>, k: K, max: nat, other: int)
    requires other >= 0 && |m| <= max
    ensures TallyRest(m, k, max, other, 1) >= 0 && |Tally(m, k, max, 1)| <= max
    ensures TallyRest(m, k, max, other, 1) == 0 ==> other == 0 && Tally(m, k, max, 1) == m[k := At(m, k) + 1]
  {
    SizeWith(m, k, At(m, k) + 1);
  }

  lemma SizeWith<K>(m: map<K, int>, k: K, n: int)
    ensures |m[k := n]| == if k in m then |m| else |m| + 1
  {
    assert m[k := n].Keys == m.Keys + {k};
  }

  // ----- paths -----

  /** The requests for one path that wait under a ban, client by client. */
  function WaitingOn(agg: map<AggKey, Agg>, id: nat, path: string): map<AggKey, int> {
    map key | key in agg && key.0 == id :: At(agg[key].paths, path)
  }

  ghost predicate Positive<K(!new)>(m: map<K, int>) {
    forall k :: k in m ==> m[k] > 0
  }

  ghost predicate ListedIn(agg: map<AggKey, Agg>, id: nat, live: map<string, int>) {
    forall key :: key in agg && key.0 == id ==> agg[key].other == 0 && agg[key].paths.Keys <= live.Keys
  }

  /** While the live list of paths has room for all, what it counts is in the replay's list or waits. */
  ghost predicate PathsLinked(live: map<string, int>, other: int, back: map<string, int>, backOther: int,
                              agg: map<AggKey, Agg>, id: nat) {
    && other >= 0 && |live| <= WINDOW_PATHS
    && (other == 0 ==> backOther == 0 && back.Keys <= live.Keys && Positive(live) && PathsCounted(live, back, agg, id))
  }

  ghost predicate PathsCounted(live: map<string, int>, back: map<string, int>, agg: map<AggKey, Agg>, id: nat) {
    && ListedIn(agg, id, live)
    && forall p :: At(live, p) == At(back, p) + Sum(WaitingOn(agg, id, p))
  }

  lemma OneMore<K(!new)>(m: map<K, int>, k: K)
    requires Positive(m)
    ensures var m' := m[k := At(m, k) + 1]; Positive(m') && m.Keys <= m'.Keys && k in m'
  {
  }

  lemma PathsStart(agg: map<AggKey, Agg>, id: nat)
    requires forall key :: key in agg ==> key.0 != id
    ensures PathsLinked(map[], 0, map[], 0, agg, id)
  {
    forall p ensures Sum(WaitingOn(agg, id, p)) == 0 {
      assert WaitingOn(agg, id, p) == map[];
    }
  }

  lemma PathsSame(live: map<string, int>, other: int, back: map<string, int>, backOther: int, agg: map<AggKey, Agg>,
                  agg': map<AggKey, Agg>, id: nat)
    requires PathsLinked(live, other, back, backOther, agg, id)
    requires forall key: AggKey :: key.0 == id ==> (key in agg <==> key in agg') && (key in agg ==> agg'[key] == agg[key])
    ensures PathsLinked(live, other, back, backOther, agg', id)
  {
    forall p ensures WaitingOn(agg', id, p) == WaitingOn(agg, id, p) {}
  }

  lemma PathsCountedRaw(live: map<string, int>, back: map<string, int>, agg: map<AggKey, Agg>, id: nat, path: string)
    requires PathsCounted(live, back, agg, id)
    ensures PathsCounted(live[path := At(live, path) + 1], back[path := At(back, path) + 1], agg, id)
  {
    hide WaitingOn;
  }

  lemma PathsRaw(live: map<string, int>, other: int, back: map<string, int>, backOther: int, agg: map<AggKey, Agg>,
                 id: nat, path: string)
    requires PathsLinked(live, other, back, backOther, agg, id)
    ensures PathsLinked(Tally(live, path, WINDOW_PATHS, 1), TallyRest(live, path, WINDOW_PATHS, other, 1),
                        Tally(back, path, WINDOW_PATHS, 1), TallyRest(back, path, WINDOW_PATHS, backOther, 1), agg, id)
  {
    hide Tally, TallyRest, PathsCounted, Positive, At;
    TallyListed(live, path, WINDOW_PATHS, other);
    if TallyRest(live, path, WINDOW_PATHS, other, 1) == 0 {
      OneMore(live, path);
      PathsCountedRaw(live, back, agg, id, path);
      TallyWithin(back, live[path := At(live, path) + 1], path, WINDOW_PATHS, backOther, 1);
    }
  }

  lemma WaitingMore(agg: map<AggKey, Agg>, id: nat, key: AggKey, v: Agg, p: string)
    requires key.0 == id
    ensures Sum(WaitingOn(agg[key := v], id, p))
            == Sum(WaitingOn(agg, id, p)) + At(v.paths, p) - if key in agg then At(agg[key].paths, p) else 0
  {
    var before, after := WaitingOn(agg, id, p), WaitingOn(agg[key := v], id, p);
    SumWithout(after, key);
    assert after - {key} == before - {key};
    if key in agg {
      SumWithout(before, key);
    } else {
      assert before - {key} == before;
    }
  }

  lemma WaitingLess(agg: map<AggKey, Agg>, id: nat, key: AggKey, p: string)
    requires key.0 == id && key in agg
    ensures Sum(WaitingOn(agg - {key}, id, p)) == Sum(WaitingOn(agg, id, p)) - At(agg[key].paths, p)
  {
    SumWithout(WaitingOn(agg, id, p), key);
    assert WaitingOn(agg - {key}, id, p) == WaitingOn(agg, id, p) - {key};
  }

  lemma AggWithin(v: Agg, live: map<string, int>, path: string)
    requires v.other == 0 && v.paths.Keys <= live.Keys && path in live && |live| <= WINDOW_PATHS
    ensures var v' := AggPlus(v, path);
            v'.other == 0 && v'.paths.Keys <= live.Keys && v'.paths == v.paths[path := At(v.paths, path) + 1]
  {
    hide Tally, TallyRest;
    TallyWithin(v.paths, live, path, WINDOW_PATHS, v.other, 1);
  }

  lemma PathsCountedWait(live: map<string, int>, back: map<string, int>, agg: map<AggKey, Agg>, id: nat, ip: Addr,
                         path: string)
    requires PathsCounted(live, back, agg, id) && |live[path := At(live, path) + 1]| <= WINDOW_PATHS
    ensures var v := if (id, ip) in agg then agg[(id, ip)] else Agg(0, map[], 0);
            PathsCounted(live[path := At(live, path) + 1], back, agg[(id, ip) := AggPlus(v, path)], id)
  {
    hide WaitingOn, AggPlus, ListedIn;
    var live' := live[path := At(live, path) + 1];
    var v := if (id, ip) in agg then agg[(id, ip)] else Agg(0, map[], 0);
    ListedWait(live, agg, id, ip, path);
    forall p ensures At(live', p) == At(back, p) + Sum(WaitingOn(agg[(id, ip) := AggPlus(v, path)], id, p)) {
      WaitingMore(agg, id, (id, ip), AggPlus(v, path), p);
    }
  }

  lemma ListedWait(live: map<string, int>, agg: map<AggKey, Agg>, id: nat, ip: Addr, path: string)
    requires ListedIn(agg, id, live) && |live[path := At(live, path) + 1]| <= WINDOW_PATHS
    ensures var v := if (id, ip) in agg then agg[(id, ip)] else Agg(0, map[], 0);
            && AggPlus(v, path).paths == v.paths[path := At(v.paths, path) + 1]
            && ListedIn(agg[(id, ip) := AggPlus(v, path)], id, live[path := At(live, path) + 1])
  {
    hide AggPlus, At;
    var live' := live[path := At(live, path) + 1];
    assert live'.Keys == live.Keys + {path};
    AggWithin(if (id, ip) in agg then agg[(id, ip)] else Agg(0, map[], 0), live', path);
  }

  lemma PathsWait(live: map<string, int>, other: int, back: map<string, int>, backOther: int, agg: map<AggKey, Agg>,
                  id: nat, ip: Addr, path: string)
    requires PathsLinked(live, other, back, backOther, agg, id)
    ensures var v := if (id, ip) in agg then agg[(id, ip)] else Agg(0, map[], 0);
            PathsLinked(Tally(live, path, WINDOW_PATHS, 1), TallyRest(live, path, WINDOW_PATHS, other, 1),
                        back, backOther, agg[(id, ip) := AggPlus(v, path)], id)
  {
    hide Tally, TallyRest, AggPlus, PathsCounted, Positive, At;
    TallyListed(live, path, WINDOW_PATHS, other);
    if TallyRest(live, path, WINDOW_PATHS, other, 1) == 0 {
      OneMore(live, path);
      PathsCountedWait(live, back, agg, id, ip, path);
    }
  }

  function ItemsAt(items: seq<(string, int)>, p: string): int {
    if items == [] then 0 else (if items[0].0 == p then items[0].1 else 0) + ItemsAt(items[1..], p)
  }

  lemma {:induction false} ItemsListed(items: seq<(string, int)>, m: map<string, int>, p: string)
    requires Lists(items, m)
    ensures ItemsAt(items, p) == At(m, p)
    decreases |items|
  {
    if items != [] {
      var q, rest := items[0].0, items[1..];
      assert forall i :: 0 <= i < |rest| ==> rest[i] == items[i + 1];
      forall x | x in m - {q} ensures exists i :: 0 <= i < |rest| && rest[i].0 == x {
        var i :| 0 <= i < |items| && items[i].0 == x;
        assert rest[i - 1].0 == x;
      }
      ItemsListed(rest, m - {q}, p);
    }
  }

  /** Items whose paths the live list holds are counted one by one. */
  lemma {:induction false} ItemisedWithin(w: Window, ip: Addr, items: seq<(string, int)>, live: map<string, int>)
    requires w.paths.Keys <= live.Keys && |live| <= WINDOW_PATHS
    requires forall i :: 0 <= i < |items| ==> items[i].0 in live
    ensures var w' := Itemised(w, ip, items);
            && w'.paths.Keys <= live.Keys && w'.otherPaths == w.otherPaths
            && forall p :: At(w'.paths, p) == At(w.paths, p) + ItemsAt(items, p)
    decreases |items|
  {
    hide Tally, TallyRest;
    if items != [] {
      TallyWithin(w.paths, live, items[0].0, WINDOW_PATHS, w.otherPaths, items[0].1);
      assert forall i :: 0 <= i < |items[1..]| ==> items[1..][i] == items[i + 1];
      ItemisedWithin(Counted(w, ip, items[0].0, items[0].1), ip, items[1..], live);
    }
  }

  lemma PathsFlush(live: map<string, int>, other: int, back: Window, agg: map<AggKey, Agg>, id: nat, ip: Addr,
                   items: seq<(string, int)>)
    requires PathsLinked(live, other, back.paths, back.otherPaths, agg, id)
    requires (id, ip) in agg && AggOk(agg[(id, ip)]) && Lists(items, agg[(id, ip)].paths)
    ensures var back' := Aggregated(back, ip, agg[(id, ip)].n, items);
            PathsLinked(live, other, back'.paths, back'.otherPaths, agg - {(id, ip)}, id)
  {
    hide WaitingOn, Itemised;
    if other == 0 {
      var v := agg[(id, ip)];
      SumListed(items, v.paths);
      ItemisedWithin(back, ip, items, live);
      forall p ensures At(live, p) == At(Itemised(back, ip, items).paths, p) + Sum(WaitingOn(agg - {(id, ip)}, id, p)) {
        WaitingLess(agg, id, (id, ip), p);
        ItemsListed(items, v.paths, p);
      }
    }
  }

  // ----- clients -----

  function WaitingOf(agg: map<AggKey, Agg>, key: AggKey): int { if key in agg then agg[key].n else 0 }

  ghost predicate ClientsLinked(live: map<Addr, int>, other: int, back: map<Addr, int>, backOther: int,
                                agg: map<AggKey, Agg>, id: nat) {
    && other >= 0 && |live| <= WINDOW_CLIENTS
    && (other == 0 ==> backOther == 0 && back.Keys <= live.Keys && Positive(live) && ClientsCounted(live, back, agg, id))
  }

  ghost predicate ClientsCounted(live: map<Addr, int>, back: map<Addr, int>, agg: map<AggKey, Agg>, id: nat) {
    && (forall key :: key in agg && key.0 == id ==> key.1 in live)
    && forall ip :: At(live, ip) == At(back, ip) + WaitingOf(agg, (id, ip))
  }

  lemma ClientsCountedMore(live: map<Addr, int>, back: map<Addr, int>, agg: map<AggKey, Agg>, id: nat, ip: Addr,
                           path: string)
    requires ClientsCounted(live, back, agg, id)
    ensures var v := if (id, ip) in agg then agg[(id, ip)] else Agg(0, map[], 0);
            var live' := live[ip := At(live, ip) + 1];
            && ClientsCounted(live', back[ip := At(back, ip) + 1], agg, id)
            && ClientsCounted(live', back, agg[(id, ip) := AggPlus(v, path)], id)
  {
    hide Tally, TallyRest;
  }

  lemma ClientsRaw(live: map<Addr, int>, other: int, back: map<Addr, int>, backOther: int, agg: map<AggKey, Agg>, id: nat,
                   ip: Addr)
    requires ClientsLinked(live, other, back, backOther, agg, id)
    ensures ClientsLinked(Tally(live, ip, WINDOW_CLIENTS, 1), TallyRest(live, ip, WINDOW_CLIENTS, other, 1),
                          Tally(back, ip, WINDOW_CLIENTS, 1), TallyRest(back, ip, WINDOW_CLIENTS, backOther, 1), agg, id)
  {
    hide Tally, TallyRest, ClientsCounted, Positive, At, AggPlus;
    TallyListed(live, ip, WINDOW_CLIENTS, other);
    if TallyRest(live, ip, WINDOW_CLIENTS, other, 1) == 0 {
      OneMore(live, ip);
      ClientsCountedMore(live, back, agg, id, ip, "");
      TallyWithin(back, live[ip := At(live, ip) + 1], ip, WINDOW_CLIENTS, backOther, 1);
    }
  }

  lemma ClientsWait(live: map<Addr, int>, other: int, back: map<Addr, int>, backOther: int, agg: map<AggKey, Agg>, id: nat,
                    ip: Addr, path: string)
    requires ClientsLinked(live, other, back, backOther, agg, id)
    ensures var v := if (id, ip) in agg then agg[(id, ip)] else Agg(0, map[], 0);
            ClientsLinked(Tally(live, ip, WINDOW_CLIENTS, 1), TallyRest(live, ip, WINDOW_CLIENTS, other, 1),
                          back, backOther, agg[(id, ip) := AggPlus(v, path)], id)
  {
    hide Tally, TallyRest, ClientsCounted, Positive, At, AggPlus;
    TallyListed(live, ip, WINDOW_CLIENTS, other);
    if TallyRest(live, ip, WINDOW_CLIENTS, other, 1) == 0 {
      OneMore(live, ip);
      ClientsCountedMore(live, back, agg, id, ip, path);
    }
  }

  /** One client's items all go to that client. */
  lemma {:induction false} ItemisedClient(w: Window, ip: Addr, items: seq<(string, int)>, live: map<Addr, int>)
    requires w.clients.Keys <= live.Keys && |live| <= WINDOW_CLIENTS && ip in live
    ensures var w' := Itemised(w, ip, items);
            && w'.otherClients == w.otherClients
            && w'.clients == if items == [] then w.clients else w.clients[ip := At(w.clients, ip) + SumItems(items)]
    decreases |items|
  {
    hide Tally, TallyRest;
    if items != [] {
      TallyWithin(w.clients, live, ip, WINDOW_CLIENTS, w.otherClients, items[0].1);
      ItemisedClient(Counted(w, ip, items[0].0, items[0].1), ip, items[1..], live);
    }
  }

  lemma ClientsFlush(live: map<Addr, int>, other: int, back: Window, agg: map<AggKey, Agg>, id: nat, ip: Addr,
                     items: seq<(string, int)>)
    requires ClientsLinked(live, other, back.clients, back.otherClients, agg, id)
    requires (id, ip) in agg && AggOk(agg[(id, ip)]) && Lists(items, agg[(id, ip)].paths)
    ensures var back' := Aggregated(back, ip, agg[(id, ip)].n, items);
            ClientsLinked(live, other, back'.clients, back'.otherClients, agg - {(id, ip)}, id)
  {
    hide Itemised, Tally, TallyRest, Lists;
    if other == 0 {
      var v := agg[(id, ip)];
      SumListed(items, v.paths);
      ItemisedClient(back, ip, items, live);
      var w := Itemised(back, ip, items);
      TallyWithin(w.clients, live, ip, WINDOW_CLIENTS, w.otherClients, v.n - SumItems(items));
    }
  }

  // ----- over a run -----

  ghost predicate WindowsLinked(live: Window, back: Window, agg: map<AggKey, Agg>, id: nat) {
    && PathsLinked(live.paths, live.otherPaths, back.paths, back.otherPaths, agg, id)
    && ClientsLinked(live.clients, live.otherClients, back.clients, back.otherClients, agg, id)
  }

  ghost predicate ItemsLinked(l: Live, id: nat) {
    id in l.counts.windows ==>
      id in Replay(l.log).windows && WindowsLinked(l.counts.windows[id], Replay(l.log).windows[id], l.agg, id)
  }

  predicate Same(c: Counts, c': Counts, id: nat) {
    && (id in c.windows <==> id in c'.windows)
    && (id in c.windows ==> c'.windows[id] == c.windows[id])
  }

  predicate SameAgg(agg: map<AggKey, Agg>, agg': map<AggKey, Agg>, id: nat) {
    && (forall key: AggKey :: key in agg && key.0 == id ==> key in agg' && agg'[key] == agg[key])
    && (forall key: AggKey :: key in agg' && key.0 == id ==> key in agg)
  }

  lemma LinkedSame(live: Window, back: Window, agg: map<AggKey, Agg>, agg': map<AggKey, Agg>, id: nat)
    requires WindowsLinked(live, back, agg, id) && SameAgg(agg, agg', id)
    ensures WindowsLinked(live, back, agg', id)
  {
    hide PathsLinked, PathsCounted;
    PathsSame(live.paths, live.otherPaths, back.paths, back.otherPaths, agg, agg', id);
  }

  /** What one line of the log does to a ban's window in a replay. */
  lemma LineApplied(c: Counts, ev: Event, id: nat)
    requires id != 0
    ensures ev.BanEvent? && (ev.id != id || id in c.windows) ==> Same(c, ApplyEvent(c, ev), id)
    ensures ev == BanEvent(id) && id !in c.windows ==>
              id in ApplyEvent(c, ev).windows && ApplyEvent(c, ev).windows[id] == NEW_WINDOW
    ensures ev.RequestEvent? && !(ev.blocked && ev.ban == id) ==> Same(c, ApplyEvent(c, ev), id)
    ensures ev.RequestEvent? && ev.blocked && ev.ban == id && id in c.windows ==>
              id in ApplyEvent(c, ev).windows && ApplyEvent(c, ev).windows[id] == Counted(c.windows[id], ev.ip, ev.path, 1)
    ensures ev.AggEvent? && (ev.ban != id || ev.count <= 0) ==> Same(c, ApplyEvent(c, ev), id)
    ensures ev.AggEvent? && ev.ban == id && ev.count > 0 && id in c.windows ==>
              && id in ApplyEvent(c, ev).windows
              && ApplyEvent(c, ev).windows[id] == Aggregated(c.windows[id], ev.ip, ev.count, ev.items)
  {
    hide Counted, Aggregated;
  }

  /** What a turned-away request under the ban leaves: a line of its own, or one more in the aggregate. */
  lemma RequestItems(l: Live, ip: Addr, path: string, failed: bool, id: nat)
    requires id != 0 && id in l.counts.windows && ItemsLinked(l, id)
    requires Record(l, ip, path, failed, Blocked(id)).dropped == l.dropped
    ensures ItemsLinked(Record(l, ip, path, failed, Blocked(id)), id)
  {
    hide Tally, TallyRest, AggPlus, PathsLinked, ClientsLinked, AddRequest, Replay, LogRaw;
    var live, back := l.counts.windows[id], Replay(l.log).windows[id];
    var w0 := Counted(live, ip, path, 1);
    var (w, raw) := LogRaw(w0, ip);
    HistoryRuns.LoggedKeeps(w0, ip);
    AddRequestWindows(l.counts.(windows := l.counts.windows[id := w]), ip, true, failed, false);
    if raw {
      var ev := RequestEvent(ip, path, true, failed, false, id);
      ReplaySnoc(l.log, ev);
      LineApplied(Replay(l.log), ev, id);
      PathsRaw(live.paths, live.otherPaths, back.paths, back.otherPaths, l.agg, id, path);
      ClientsRaw(live.clients, live.otherClients, back.clients, back.otherClients, l.agg, id, ip);
    } else {
      PathsWait(live.paths, live.otherPaths, back.paths, back.otherPaths, l.agg, id, ip, path);
      ClientsWait(live.clients, live.otherClients, back.clients, back.otherClients, l.agg, id, ip, path);
    }
  }

  /** Any other request leaves the ban's window, what its lines replay to and what waits under it. */
  lemma OtherRequest(l: Live, ip: Addr, path: string, failed: bool, meets: Meets, id: nat)
    requires id != 0 && meets != Blocked(id)
    ensures var l' := Record(l, ip, path, failed, meets);
            Same(l.counts, l'.counts, id) && SameAgg(l.agg, l'.agg, id) && Same(Replay(l.log), Replay(l'.log), id)
  {
    hide Counted, AggPlus, AddRequest, ApplyEvent, Replay, LogRaw;
    var l' := Record(l, ip, path, failed, meets);
    match meets
    case NoBan =>
      AddRequestWindows(l.counts, ip, false, failed, false);
      OtherLine(l.log, RequestEvent(ip, path, false, failed, false, 0), id);
    case SetOff(i, triggered) =>
      AddRequestWindows(l.counts, ip, false, failed, triggered);
      OtherLine(l.log, RequestEvent(ip, path, false, failed, triggered, i), id);
    case Blocked(i) =>
      AddRequestWindows(l.counts, ip, true, failed, false);
      OtherLine(l.log, RequestEvent(ip, path, true, failed, false, 0), id);
      OtherLine(l.log, RequestEvent(ip, path, true, failed, false, i), id);
      if i in l.counts.windows {
        var w := LogRaw(Counted(l.counts.windows[i], ip, path, 1), ip).0;
        AddRequestWindows(l.counts.(windows := l.counts.windows[i := w]), ip, true, failed, false);
      }
  }

  lemma OtherLine(log: seq<Event>, ev: Event, id: nat)
    requires id != 0 && ev.RequestEvent? && !(ev.blocked && ev.ban == id)
    ensures Same(Replay(log), Replay(log + [ev]), id)
  {
    hide ApplyEvent, Replay;
    ReplaySnoc(log, ev);
    LineApplied(Replay(log), ev, id);
  }

  lemma FlushItems(l: Live, key: AggKey, items: seq<(string, int)>, id: nat)
    requires id != 0 && Linked(l) && ItemsLinked(l, id) && Enabled(l, FlushOne(key, items))
    ensures ItemsLinked(Next(l, FlushOne(key, items)), id)
  {
    hide WindowLinked, ClientLinked, Lists, ApplyEvent, Replay, Aggregated, PathsLinked, ClientsLinked, Waiting;
    var v, l' := l.agg[key], Next(l, FlushOne(key, items));
    var ev := AggEvent(key.0, key.1, v.n, items);
    ReplaySnoc(l.log, ev);
    LineApplied(Replay(l.log), ev, id);
    if id in l.counts.windows {
      var live, back := l.counts.windows[id], Replay(l.log).windows[id];
      if key.0 == id {
        PathsFlush(live.paths, live.otherPaths, back, l.agg, id, key.1, items);
        ClientsFlush(live.clients, live.otherClients, back, l.agg, id, key.1, items);
      } else {
        LinkedSame(live, back, l.agg, l'.agg, id);
      }
    }
  }

  lemma NewBanItems(l: Live, i: nat, id: nat)
    requires id != 0 && Linked(l) && ItemsLinked(l, id) && Enabled(l, NewBan(i))
    ensures ItemsLinked(Next(l, NewBan(i)), id)
  {
    hide WindowLinked, ClientLinked, ApplyEvent, Replay, PathsLinked, ClientsLinked, Waiting, AggOk;
    ReplaySnoc(l.log, BanEvent(i));
    LineApplied(Replay(l.log), BanEvent(i), id);
    if i == id {
      PathsStart(l.agg, id);
      ClientsStart(l.agg, id);
    }
  }

  lemma ClientsStart(agg: map<AggKey, Agg>, id: nat)
    requires forall key :: key in agg ==> key.0 != id
    ensures ClientsLinked(map[], 0, map[], 0, agg, id)
  {
  }

  lemma NextItems(l: Live, op: Op, id: nat)
    requires id != 0 && Linked(l) && ItemsLinked(l, id) && Next(l, op).dropped == l.dropped
    ensures ItemsLinked(Next(l, op), id)
  {
    hide Linked, ItemsLinked, Record, Lists;
    if Enabled(l, op) {
      match op
      case NewBan(i) => NewBanItems(l, i, id);
      case FlushOne(key, items) => FlushItems(l, key, items, id);
      case Request(ip, path, failed, meets) =>
        if meets == Blocked(id) {
          RequestItems(l, ip, path, failed, id);
        } else {
          OtherRequest(l, ip, path, failed, meets, id);
          SameItems(l, Record(l, ip, path, failed, meets), id);
        }
    }
  }

  lemma SameItems(l: Live, l': Live, id: nat)
    requires ItemsLinked(l, id)
    requires Same(l.counts, l'.counts, id) && SameAgg(l.agg, l'.agg, id) && Same(Replay(l.log), Replay(l'.log), id)
    ensures ItemsLinked(l', id)
  {
    hide Replay, WindowsLinked;
    if id in l.counts.windows {
      LinkedSame(l.counts.windows[id], Replay(l.log).windows[id], l.agg, l'.agg, id);
    }
  }

  lemma {:induction false} RunItems(l: Live, ops: seq<Op>, id: nat)
    requires id != 0 && Inv(l) && l.dropped == 0 && ItemsLinked(l, id) && Run(l, ops).dropped == 0
    ensures ItemsLinked(Run(l, ops), id)
    decreases |ops|
  {
    hide Linked, AllBalanced, ItemsLinked, Next;
    if ops != [] {
      NextInv(l, ops[0]);
      RunDrops(Next(l, ops[0]), ops[1..]);
      NextDrops(l, ops[0]);
      NextItems(l, ops[0], id);
      RunItems(Next(l, ops[0]), ops[1..], id);
    }
  }

  lemma {:induction false} RunDrops(l: Live, ops: seq<Op>)
    ensures Run(l, ops).dropped >= l.dropped
    decreases |ops|
  {
    hide Next;
    if ops != [] {
      NextDrops(l, ops[0]);
      RunDrops(Next(l, ops[0]), ops[1..]);
    }
  }

  lemma SameMap<K(!new)>(a: map<K, int>, b: map<K, int>)
    requires b.Keys <= a.Keys && Positive(a) && forall k :: At(a, k) == At(b, k)
    ensures a == b
  {
    forall k | k in a ensures k in b && a[k] == b[k] {
      assert At(a, k) == At(b, k);
    }
    assert a.Keys == b.Keys;
  }

  /** Once the aggregate is flushed and nothing was dropped, a replay restores each ban's list of paths, and its list of
    * clients, path by path and client by client, so long as the live list had room for them all. */
  lemma ItemsRestored(ops: seq<Op>, id: nat)
    requires var l := Run(START, ops); l.agg == map[] && l.dropped == 0 && id in l.counts.windows && id != 0
    ensures var l := Run(START, ops);
            var live, back := l.counts.windows[id], Replay(l.log).windows;
            && id in back
            && (live.otherPaths == 0 ==> back[id].paths == live.paths && back[id].otherPaths == 0)
            && (live.otherClients == 0 ==> back[id].clients == live.clients && back[id].otherClients == 0)
  {
    hide Inv, Next, Run, Replay;
    StartInv();
    RunItems(START, ops, id);
    var l := Run(START, ops);
    var live, back := l.counts.windows[id], Replay(l.log).windows[id];
    if live.otherPaths == 0 {
      forall p ensures At(live.paths, p) == At(back.paths, p) {
        assert WaitingOn(l.agg, id, p) == map[];
        assert At(live.paths, p) == At(back.paths, p) + Sum(WaitingOn(l.agg, id, p));
      }
      SameMap(live.paths, back.paths);
    }
    if live.otherClients == 0 {
      forall ip ensures At(live.clients, ip) == At(back.clients, ip) {
        assert At(live.clients, ip) == At(back.clients, ip) + WaitingOf(l.agg, (id, ip));
      }
      SameMap(live.clients, back.clients);
    }
  }
}
