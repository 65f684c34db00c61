/** Recording requests, aggregating floods in the log, and replay (history.go, history_log.go). */
module History {
  import opened Addresses
  import opened Tallies

  // ----- the live history and its log -----

  datatype Stats = Stats(requests: int, blocked: int, errors: int, triggered: int)

  const NO_STATS := Stats(0, 0, 0, 0)

  datatype Event =
    | BanEvent(id: nat)
    | RequestEvent(ip: Addr, path: string, blocked: bool, failed: bool, triggered: bool, ban: nat)
    | AggEvent(ban: nat, ip: Addr, count: int, items: seq<(string, int)>)

  /** What both the live history and a replay build. */
  datatype Counts = Counts(windows: map<nat, Window>, clients: map<Addr, Stats>)

  type AggKey = (nat, Addr)

  datatype Live = Live(counts: Counts, agg: map<AggKey, Agg>, log: seq<Event>, dropped: nat)

  const START := Live(Counts(map[], map[]), map[], [], 0)

  function StatsOf(c: Counts, ip: Addr): Stats {
    if ip in c.clients then c.clients[ip] else NO_STATS
  }

  /** One request in a client's totals. */
  function AddRequest(c: Counts, ip: Addr, blocked: bool, failed: bool, triggered: bool): Counts {
    var s := StatsOf(c, ip);
    var s := s.(requests := s.requests + 1);
    var s := if blocked then s.(blocked := s.blocked + 1) else if failed then s.(errors := s.errors + 1) else s;
    c.(clients := c.clients[ip := if triggered then s.(triggered := s.triggered + 1) else s])
  }

  function AddCount(c: Counts, ip: Addr, n: int): Counts {
    if n <= 0 then c
    else
      var s := StatsOf(c, ip);
      c.(clients := c.clients[ip := s.(requests := s.requests + n, blocked := s.blocked + n)])
  }

  function CountIn(c: Counts, id: nat, ip: Addr, path: string): Counts {
    if id in c.windows then c.(windows := c.windows[id := Counted(c.windows[id], ip, path, 1)]) else c
  }

  function ApplyEvent(c: Counts, ev: Event): Counts {
    match ev
    case BanEvent(id) => if id == 0 || id in c.windows then c else c.(windows := c.windows[id := NEW_WINDOW])
    case RequestEvent(ip, path, blocked, failed, triggered, ban) =>
      AddRequest(if ban != 0 && blocked then CountIn(c, ban, ip, path) else c, ip, blocked, failed, triggered)
    case AggEvent(ban, ip, count, items) =>
      if count <= 0 then c
      else
        var c := if ban in c.windows then c.(windows := c.windows[ban := Aggregated(c.windows[ban], ip, count, items)])
                 else c;
        AddCount(c, ip, count)
  }

  function Replay(log: seq<Event>): Counts {
    if log == [] then Counts(map[], map[]) else ApplyEvent(Replay(log[..|log| - 1]), log[|log| - 1])
  }

  // ----- recording -----

  /** What a request meets: no ban, a ban it arrived under (whose window may be unknown), or one it set off. */
  datatype Meets = NoBan | Blocked(window: nat) | SetOff(window: nat, triggered: bool)

  datatype Op =
    | NewBan(id: nat)
    | Request(ip: Addr, path: string, failed: bool, meets: Meets)
    | FlushOne(key: AggKey, items: seq<(string, int)>)

  /** Whether the request is written to the log by itself, and how often the window has logged the client. */
  function LogRaw(w: Window, ip: Addr): (Window, bool) {
    if ip !in w.logged && |w.logged| >= WINDOW_CLIENTS * 10 then (w, false)
    else
      var n := if ip in w.logged then w.logged[ip] else 0;
      (w.(logged := w.logged[ip := n + 1]), n < RAW_PER_BAN)
  }

  function AggAdd(l: Live, key: AggKey, path: string): (l': Live)
    ensures l'.counts == l.counts && l'.log == l.log && l'.dropped >= l.dropped
  {
    if key !in l.agg && |l.agg| >= AGG_MAX then l.(dropped := l.dropped + 1)
    else l.(agg := l.agg[key := AggPlus(if key in l.agg then l.agg[key] else Agg(0, map[], 0), path)])
  }

  function Emit(l: Live, ev: Event): Live { l.(log := l.log + [ev]) }

  ghost predicate Enabled(l: Live, op: Op) {
    match op
    case NewBan(id) => id != 0 && id !in l.counts.windows
    case Request(_, _, _, meets) =>
      (match meets
       case NoBan => true
       case Blocked(id) => id == 0 || id in l.counts.windows
       case SetOff(id, _) => id == 0 || id in l.counts.windows)
    case FlushOne(key, items) => key in l.agg && Lists(items, l.agg[key].paths)
  }

  function Record(l: Live, ip: Addr, path: string, failed: bool, meets: Meets): Live {
    match meets
    case NoBan =>
      Emit(l.(counts := AddRequest(l.counts, ip, false, failed, false)),
           RequestEvent(ip, path, false, failed, false, 0))
    case SetOff(id, triggered) =>
      Emit(l.(counts := AddRequest(l.counts, ip, false, failed, triggered)),
           RequestEvent(ip, path, false, failed, triggered, id))
    case Blocked(id) =>
      if id !in l.counts.windows then
        Emit(l.(counts := AddRequest(l.counts, ip, true, failed, false)),
             RequestEvent(ip, path, true, failed, false, 0))
      else
        var (w, raw) := LogRaw(Counted(l.counts.windows[id], ip, path, 1), ip);
        var l := l.(counts := AddRequest(l.counts.(windows := l.counts.windows[id := w]), ip, true, failed, false));
        if raw then Emit(l, RequestEvent(ip, path, true, failed, false, id)) else AggAdd(l, (id, ip), path)
  }

  ghost function Next(l: Live, op: Op): Live {
    if !Enabled(l, op) then l
    else
      match op
      case NewBan(id) =>
        Emit(l.(counts := l.counts.(windows := l.counts.windows[id := NEW_WINDOW])), BanEvent(id))
      case Request(ip, path, failed, meets) => Record(l, ip, path, failed, meets)
      case FlushOne(key, items) =>
        Emit(l.(agg := l.agg - {key}), AggEvent(key.0, key.1, l.agg[key].n, items))
  }

  ghost function Run(l: Live, ops: seq<Op>): Live
    decreases |ops|
  {
    if ops == [] then l else Run(Next(l, ops[0]), ops[1..])
  }

  // ----- what waits in the aggregate -----

  datatype Selection = OfWindow(id: nat) | OfClient(ip: Addr)

  predicate Picks(sel: Selection, key: AggKey) {
    match sel
    case OfWindow(id) => key.0 == id
    case OfClient(ip) => key.1 == ip
  }

  function Waiting(agg: map<AggKey, Agg>, sel: Selection): map<AggKey, int> {
    map key | key in agg && Picks(sel, key) :: agg[key].n
  }

  lemma WaitingPut(agg: map<AggKey, Agg>, key: AggKey, v: Agg, sel: Selection)
    ensures Sum(Waiting(agg[key := v], sel))
            == Sum(Waiting(agg, sel)) + if Picks(sel, key) then v.n - (if key in agg then agg[key].n else 0) else 0
  {
    var before, after := Waiting(agg, sel), Waiting(agg[key := v], sel);
    if Picks(sel, key) {
      SumWithout(after, key);
      assert after - {key} == before - {key};
      if key in agg {
        SumWithout(before, key);
      } else {
        assert before - {key} == before;
      }
    } else {
      assert after == before;
    }
  }

  lemma WaitingDrop(agg: map<AggKey, Agg>, key: AggKey, sel: Selection)
    requires key in agg
    ensures Sum(Waiting(agg - {key}, sel)) == Sum(Waiting(agg, sel)) - if Picks(sel, key) then agg[key].n else 0
  {
    var before, after := Waiting(agg, sel), Waiting(agg - {key}, sel);
    if Picks(sel, key) {
      SumWithout(before, key);
      assert after == before - {key};
    } else {
      assert after == before;
    }
  }

  lemma NothingWaits(sel: Selection)
    ensures Sum(Waiting(map[], sel)) == 0
  {
    assert Waiting(map[], sel) == map[];
  }

  // ----- the totals hold -----

  ghost predicate WindowLinked(live: Counts, back: Counts, agg: map<AggKey, Agg>, id: nat)
    requires id in live.windows && id in back.windows
  {
    live.windows[id].requests == back.windows[id].requests + Sum(Waiting(agg, OfWindow(id)))
  }

  ghost predicate ClientLinked(live: Counts, back: Counts, agg: map<AggKey, Agg>, ip: Addr) {
    var s, r := StatsOf(live, ip), StatsOf(back, ip);
    var waiting := Sum(Waiting(agg, OfClient(ip)));
    && s.requests == r.requests + waiting && s.blocked == r.blocked + waiting
    && s.errors == r.errors && s.triggered == r.triggered
  }

  /** Everything counted live is in the log or waits in the aggregate. */
  ghost predicate Linked(l: Live) {
    var back := Replay(l.log);
    && l.counts.windows.Keys == back.windows.Keys && 0 !in l.counts.windows
    && (forall key :: key in l.agg ==> AggOk(l.agg[key]) && key.0 in l.counts.windows)
    && (forall id :: id in l.counts.windows ==> WindowLinked(l.counts, back, l.agg, id))
    && (forall ip :: ClientLinked(l.counts, back, l.agg, ip))
  }

  ghost predicate AllBalanced(c: Counts) {
    forall id :: id in c.windows ==> Balanced(c.windows[id])
  }

  ghost predicate Inv(l: Live) {
    AllBalanced(l.counts) && AllBalanced(Replay(l.log)) && (l.dropped == 0 ==> Linked(l))
  }

  lemma ReplaySnoc(log: seq<Event>, ev: Event)
    ensures Replay(log + [ev]) == ApplyEvent(Replay(log), ev)
  {
    assert (log + [ev])[..|log|] == log;
  }

  lemma NewWindowBalanced()
    ensures Balanced(NEW_WINDOW)
  {
    assert Sum<string>(map[]) == 0 && Sum<Addr>(map[]) == 0;
  }

  lemma AggregatedBalanced(w: Window, ip: Addr, count: int, items: seq<(string, int)>)
    ensures Balanced(w) ==> Balanced(Aggregated(w, ip, count, items))
    ensures count >= SumItems(items) ==> Aggregated(w, ip, count, items).requests == w.requests + count
  {
    ItemisedBalanced(w, ip, items);
    var w1 := Itemised(w, ip, items);
    if Balanced(w1) {
      CountedBalanced(w1, ip, "", count - SumItems(items));
    }
  }

  /** Replaying any line keeps every window's totals in balance. */
  lemma ApplyBalanced(c: Counts, ev: Event)
    requires AllBalanced(c)
    ensures AllBalanced(ApplyEvent(c, ev))
  {
    hide Balanced, Counted, Aggregated;
    NewWindowBalanced();
    match ev
    case BanEvent(id) =>
    case RequestEvent(ip, path, blocked, failed, triggered, ban) =>
      if ban in c.windows {
        CountedBalanced(c.windows[ban], ip, path, 1);
      }
    case AggEvent(ban, ip, count, items) =>
      if ban in c.windows {
        AggregatedBalanced(c.windows[ban], ip, count, items);
      }
  }

  lemma {:induction false} ReplayBalanced(log: seq<Event>)
    ensures AllBalanced(Replay(log))
  {
    hide Balanced, ApplyEvent;
    if log != [] {
      ReplayBalanced(log[..|log| - 1]);
      ApplyBalanced(Replay(log[..|log| - 1]), log[|log| - 1]);
    }
  }

  lemma NextBalanced(l: Live, op: Op)
    requires AllBalanced(l.counts)
    ensures AllBalanced(Next(l, op).counts)
  {
    hide Balanced, Counted, AggAdd, Lists;
    NewWindowBalanced();
    if op.Request? && op.meets.Blocked? && op.meets.window in l.counts.windows {
      var w := l.counts.windows[op.meets.window];
      CountedBalanced(w, op.ip, op.path, 1);
      LoggedBalanced(Counted(w, op.ip, op.path, 1), op.ip);
    }
  }

  lemma LoggedBalanced(w: Window, ip: Addr)
    ensures Balanced(w) ==> Balanced(LogRaw(w, ip).0)
    ensures LogRaw(w, ip).0.requests == w.requests
  {
  }

  // ----- no request is lost or counted twice -----

  lemma NextDrops(l: Live, op: Op)
    ensures Next(l, op).dropped >= l.dropped
  {
    hide Lists, LogRaw, AddRequest, Counted;
  }

  /** Recording a request changes only its client's totals, by one. */
  lemma AddRequestStats(c: Counts, ip: Addr, blocked: bool, failed: bool, triggered: bool, who: Addr)
    ensures var s, s' := StatsOf(c, who), StatsOf(AddRequest(c, ip, blocked, failed, triggered), who);
            s' == if who != ip then s
                  else Stats(s.requests + 1, s.blocked + if blocked then 1 else 0,
                             s.errors + if failed && !blocked then 1 else 0, s.triggered + if triggered then 1 else 0)
  {
  }

  lemma NewBanLinked(l: Live, id: nat)
    requires Linked(l)
    ensures Linked(Next(l, NewBan(id)))
  {
    hide AggOk, WindowLinked, ClientLinked, Waiting, Lists;
    var l' := Next(l, NewBan(id));
    if id != 0 && id !in l.counts.windows {
      ReplaySnoc(l.log, BanEvent(id));
      forall i | i in l'.counts.windows ensures WindowLinked(l'.counts, Replay(l'.log), l'.agg, i) {
        if i == id {
          NoneWaits(l, id);
        }
        NewBanWindow(l.counts, Replay(l.log), l.agg, id, i);
      }
      forall ip ensures ClientLinked(l'.counts, Replay(l'.log), l'.agg, ip) {
        SameClientLinked(l.counts, l'.counts, Replay(l.log), Replay(l'.log), l.agg, ip);
      }
    }
  }

  lemma NoneWaits(l: Live, id: nat)
    requires Linked(l) && id !in l.counts.windows
    ensures Sum(Waiting(l.agg, OfWindow(id))) == 0
  {
    hide AggOk, WindowLinked, ClientLinked;
    assert Waiting(l.agg, OfWindow(id)) == map[];
  }

  lemma NewBanWindow(c: Counts, back: Counts, agg: map<AggKey, Agg>, id: nat, i: nat)
    requires i == id ==> Sum(Waiting(agg, OfWindow(id))) == 0
    requires i != id ==> i in c.windows && i in back.windows && WindowLinked(c, back, agg, i)
    ensures WindowLinked(c.(windows := c.windows[id := NEW_WINDOW]), back.(windows := back.windows[id := NEW_WINDOW]), agg, i)
  {
    hide Waiting;
  }

  lemma SameClientLinked(c: Counts, c': Counts, back: Counts, back': Counts, agg: map<AggKey, Agg>, ip: Addr)
    requires ClientLinked(c, back, agg, ip) && c'.clients == c.clients && back'.clients == back.clients
    ensures ClientLinked(c', back', agg, ip)
  {
    hide Waiting;
  }

  lemma SameStats(a: Counts, b: Counts, who: Addr)
    requires a.clients == b.clients
    ensures StatsOf(a, who) == StatsOf(b, who)
  {
  }

  /** A request that is logged by itself is counted the same live and in the replay. */
  lemma RawLinked(l: Live, l': Live, ip: Addr, path: string, blocked: bool, failed: bool, triggered: bool, id: nat)
    requires Linked(l) && l'.agg == l.agg && l'.dropped == l.dropped
    requires l'.log == l.log + [RequestEvent(ip, path, blocked, failed, triggered, id)]
    requires l'.counts.clients == AddRequest(l.counts, ip, blocked, failed, triggered).clients
    requires l'.counts.windows.Keys == l.counts.windows.Keys
    requires forall i :: i in l.counts.windows ==>
               l'.counts.windows[i].requests == l.counts.windows[i].requests + if blocked && i == id then 1 else 0
    ensures Linked(l')
  {
    hide AggOk, AddRequest, Waiting, WindowLinked, ClientLinked, Counted, StatsOf;
    ReplaySnoc(l.log, RequestEvent(ip, path, blocked, failed, triggered, id));
    var back := Replay(l.log);
    var mid := if id != 0 && blocked then CountIn(back, id, ip, path) else back;
    AddRequestWindows(mid, ip, blocked, failed, triggered);
    forall i | i in l'.counts.windows ensures WindowLinked(l'.counts, Replay(l'.log), l'.agg, i) {
      RawWindow(l.counts, l'.counts, back, l.agg, ip, path, blocked, id, i);
      SameWindows(l'.counts, mid, Replay(l'.log), l.agg, i);
    }
    forall who ensures ClientLinked(l'.counts, Replay(l'.log), l'.agg, who) {
      RawClient(l.counts, l'.counts, back, mid, l.agg, ip, blocked, failed, triggered, who);
    }
  }

  lemma SameWindows(c: Counts, a: Counts, b: Counts, agg: map<AggKey, Agg>, i: nat)
    requires a.windows == b.windows && i in c.windows && i in a.windows && WindowLinked(c, a, agg, i)
    ensures WindowLinked(c, b, agg, i)
  {
  }

  lemma RawWindow(c: Counts, c': Counts, back: Counts, agg: map<AggKey, Agg>, ip: Addr, path: string, blocked: bool,
                  id: nat, i: nat)
    requires i in c.windows && i in c'.windows && i in back.windows && i != 0 && WindowLinked(c, back, agg, i)
    requires c'.windows[i].requests == c.windows[i].requests + if blocked && i == id then 1 else 0
    ensures var mid := if id != 0 && blocked then CountIn(back, id, ip, path) else back;
            mid.windows.Keys == back.windows.Keys && WindowLinked(c', mid, agg, i)
  {
    hide Waiting, Tally, TallyRest;
  }

  lemma RawClient(c: Counts, c': Counts, back: Counts, mid: Counts, agg: map<AggKey, Agg>, ip: Addr, blocked: bool,
                  failed: bool, triggered: bool, who: Addr)
    requires ClientLinked(c, back, agg, who) && mid.clients == back.clients
    requires c'.clients == AddRequest(c, ip, blocked, failed, triggered).clients
    ensures ClientLinked(c', AddRequest(mid, ip, blocked, failed, triggered), agg, who)
  {
    hide AddRequest, Waiting, StatsOf;
    SameStats(c', AddRequest(c, ip, blocked, failed, triggered), who);
    SameStats(mid, back, who);
    AddRequestStats(c, ip, blocked, failed, triggered, who);
    AddRequestStats(mid, ip, blocked, failed, triggered, who);
  }

  lemma AddRequestWindows(c: Counts, ip: Addr, blocked: bool, failed: bool, triggered: bool)
    ensures AddRequest(c, ip, blocked, failed, triggered).windows == c.windows
  {
  }

  /** A request that goes to the aggregate waits there. */
  lemma AggLinked(l: Live, l1: Live, ip: Addr, path: string, failed: bool, id: nat)
    requires Linked(l) && id in l.counts.windows && l1.agg == l.agg && l1.log == l.log && l1.dropped == l.dropped
    requires l1.counts.clients == AddRequest(l.counts, ip, true, failed, false).clients
    requires l1.counts.windows.Keys == l.counts.windows.Keys
    requires forall i :: i in l.counts.windows ==>
               l1.counts.windows[i].requests == l.counts.windows[i].requests + if i == id then 1 else 0
    ensures AggAdd(l1, (id, ip), path).dropped == l.dropped ==> Linked(AggAdd(l1, (id, ip), path))
  {
    hide AddRequest, Waiting, AggOk, AggPlus, WindowLinked, ClientLinked, StatsOf, Replay;
    var key := (id, ip);
    var l' := AggAdd(l1, key, path);
    if l'.dropped == l.dropped {
      var v := if key in l.agg then l.agg[key] else Agg(0, map[], 0);
      AggPlusOk(v, path);
      forall i | i in l'.counts.windows ensures WindowLinked(l'.counts, Replay(l.log), l'.agg, i) {
        AggWindow(l, l', ip, path, id, i);
      }
      forall who ensures ClientLinked(l'.counts, Replay(l.log), l'.agg, who) {
        AggClient(l, l', ip, path, failed, id, who);
      }
    }
  }

  lemma AggWindow(l: Live, l': Live, ip: Addr, path: string, id: nat, i: nat)
    requires i in l.counts.windows && i in l'.counts.windows && i in Replay(l.log).windows
    requires WindowLinked(l.counts, Replay(l.log), l.agg, i)
    requires l'.counts.windows[i].requests == l.counts.windows[i].requests + if i == id then 1 else 0
    requires l'.agg == l.agg[(id, ip) := AggPlus(if (id, ip) in l.agg then l.agg[(id, ip)] else Agg(0, map[], 0), path)]
    ensures WindowLinked(l'.counts, Replay(l.log), l'.agg, i)
  {
    hide Waiting, AggPlus, Replay;
    var v := if (id, ip) in l.agg then l.agg[(id, ip)] else Agg(0, map[], 0);
    AggPlusOne(v, path);
    WaitingPut(l.agg, (id, ip), AggPlus(v, path), OfWindow(i));
  }

  lemma AggClient(l: Live, l': Live, ip: Addr, path: string, failed: bool, id: nat, who: Addr)
    requires ClientLinked(l.counts, Replay(l.log), l.agg, who)
    requires l'.counts.clients == AddRequest(l.counts, ip, true, failed, false).clients
    requires l'.agg == l.agg[(id, ip) := AggPlus(if (id, ip) in l.agg then l.agg[(id, ip)] else Agg(0, map[], 0), path)]
    ensures ClientLinked(l'.counts, Replay(l.log), l'.agg, who)
  {
    hide Waiting, AggPlus, Replay, AddRequest, StatsOf;
    var v := if (id, ip) in l.agg then l.agg[(id, ip)] else Agg(0, map[], 0);
    AggPlusOne(v, path);
    WaitingPut(l.agg, (id, ip), AggPlus(v, path), OfClient(who));
    SameStats(l'.counts, AddRequest(l.counts, ip, true, failed, false), who);
    AddRequestStats(l.counts, ip, true, failed, false, who);
  }

  lemma AggPlusOne(v: Agg, path: string)
    ensures AggPlus(v, path).n == v.n + 1
  {
  }

  /** Flushing moves what waited into the log. */
  lemma FlushLinked(l: Live, key: AggKey, items: seq<(string, int)>)
    requires Linked(l)
    ensures Linked(Next(l, FlushOne(key, items)))
  {
    hide Waiting, Lists, Aggregated, WindowLinked, ClientLinked, AddCount, AggOk;
    if Enabled(l, FlushOne(key, items)) {
      var v, l' := l.agg[key], Next(l, FlushOne(key, items));
      ReplaySnoc(l.log, AggEvent(key.0, key.1, v.n, items));
      FlushedCount(v, items);
      var back := Replay(l.log);
      var mid := back.(windows := back.windows[key.0 := Aggregated(back.windows[key.0], key.1, v.n, items)]);
      AddCountWindows(mid, key.1, v.n);
      forall i | i in l'.counts.windows ensures WindowLinked(l'.counts, Replay(l'.log), l'.agg, i) {
        FlushWindow(l.counts, back, mid, l.agg, key, items, i);
        SameWindows(l'.counts, mid, Replay(l'.log), l'.agg, i);
      }
      forall who ensures ClientLinked(l'.counts, Replay(l'.log), l'.agg, who) {
        FlushClient(l.counts, back, mid, l.agg, key, who);
      }
    }
  }

  lemma FlushedCount(v: Agg, items: seq<(string, int)>)
    requires AggOk(v) && Lists(items, v.paths)
    ensures v.n > 0 && v.n >= SumItems(items)
  {
    hide Lists;
    SumListed(items, v.paths);
  }

  lemma AddCountWindows(c: Counts, ip: Addr, n: int)
    ensures AddCount(c, ip, n).windows == c.windows
  {
  }

  lemma FlushWindow(c: Counts, back: Counts, mid: Counts, agg: map<AggKey, Agg>, key: AggKey, items: seq<(string, int)>,
                    i: nat)
    requires i in c.windows && i in back.windows && key in agg && key.0 in back.windows
    requires WindowLinked(c, back, agg, i) && agg[key].n >= SumItems(items)
    requires mid == back.(windows := back.windows[key.0 := Aggregated(back.windows[key.0], key.1, agg[key].n, items)])
    ensures WindowLinked(c, mid, agg - {key}, i)
  {
    hide Waiting, Aggregated;
    AggregatedBalanced(back.windows[key.0], key.1, agg[key].n, items);
    WaitingDrop(agg, key, OfWindow(i));
  }

  lemma FlushClient(c: Counts, back: Counts, mid: Counts, agg: map<AggKey, Agg>, key: AggKey, who: Addr)
    requires key in agg && ClientLinked(c, back, agg, who) && mid.clients == back.clients && agg[key].n > 0
    ensures ClientLinked(c, AddCount(mid, key.1, agg[key].n), agg - {key}, who)
  {
    hide Waiting;
    WaitingDrop(agg, key, OfClient(who));
  }

  lemma RequestLinked(l: Live, ip: Addr, path: string, failed: bool, meets: Meets)
    requires Linked(l)
    ensures var l' := Record(l, ip, path, failed, meets); l'.dropped == l.dropped ==> Linked(l')
  {
    hide Linked, AddRequest, Counted, AggAdd, LogRaw;
    AddRequestWindows(l.counts, ip, false, failed, false);
    match meets
    case NoBan => RawLinked(l, Record(l, ip, path, failed, meets), ip, path, false, failed, false, 0);
    case SetOff(id, triggered) =>
      AddRequestWindows(l.counts, ip, false, failed, triggered);
      RawLinked(l, Record(l, ip, path, failed, meets), ip, path, false, failed, triggered, id);
    case Blocked(id) =>
      AddRequestWindows(l.counts, ip, true, failed, false);
      if id !in l.counts.windows {
        NoWindowZero(l);
        RawLinked(l, Record(l, ip, path, failed, meets), ip, path, true, failed, false, 0);
      } else {
        BlockedLinked(l, ip, path, failed, id);
      }
  }

  lemma NoWindowZero(l: Live)
    requires Linked(l)
    ensures 0 !in l.counts.windows
  {
  }

  lemma BlockedLinked(l: Live, ip: Addr, path: string, failed: bool, id: nat)
    requires Linked(l) && id in l.counts.windows
    ensures var l' := Record(l, ip, path, failed, Blocked(id)); l'.dropped == l.dropped ==> Linked(l')
  {
    hide Linked, Counted, AggAdd, LogRaw, StatsOf;
    var w0 := Counted(l.counts.windows[id], ip, path, 1);
    var (w, raw) := LogRaw(w0, ip);
    LoggedBalanced(w0, ip);
    CountedOne(l.counts.windows[id], ip, path);
    var c := l.counts.(windows := l.counts.windows[id := w]);
    AddRequestWindows(c, ip, true, failed, false);
    SameClients(c, l.counts, ip, failed);
    var l1 := l.(counts := AddRequest(c, ip, true, failed, false));
    if raw {
      RawLinked(l, Emit(l1, RequestEvent(ip, path, true, failed, false, id)), ip, path, true, failed, false, id);
    } else {
      AggLinked(l, l1, ip, path, failed, id);
    }
  }

  lemma CountedOne(w: Window, ip: Addr, path: string)
    ensures Counted(w, ip, path, 1).requests == w.requests + 1
  {
  }

  lemma SameClients(a: Counts, b: Counts, ip: Addr, failed: bool)
    requires a.clients == b.clients
    ensures AddRequest(a, ip, true, failed, false).clients == AddRequest(b, ip, true, failed, false).clients
  {
  }

  lemma NextInv(l: Live, op: Op)
    requires Inv(l)
    ensures Inv(Next(l, op))
  {
    hide Linked, AllBalanced, Record, Lists;
    NextBalanced(l, op);
    ReplayBalanced(Next(l, op).log);
    NextDrops(l, op);
    if Next(l, op).dropped == 0 {
      match op
      case NewBan(id) => NewBanLinked(l, id);
      case Request(ip, path, failed, meets) => RequestLinked(l, ip, path, failed, meets);
      case FlushOne(key, items) => FlushLinked(l, key, items);
    }
  }

  lemma StartInv()
    ensures Inv(START)
  {
    assert Sum<AggKey>(map[]) == 0;
    forall ip ensures ClientLinked(START.counts, Replay(START.log), START.agg, ip) {
      NothingWaits(OfClient(ip));
    }
  }

  lemma {:induction false} RunInv(l: Live, ops: seq<Op>)
    requires Inv(l)
    ensures Inv(Run(l, ops))
    decreases |ops|
  {
    hide Inv, Next;
    if ops != [] {
      NextInv(l, ops[0]);
      RunInv(Next(l, ops[0]), ops[1..]);
    }
  }

  /** In every state a window's total is the sum of its paths and the rest, and of its clients and the rest. */
  lemma TotalsBalance(ops: seq<Op>, id: nat)
    requires id in Run(START, ops).counts.windows
    ensures Balanced(Run(START, ops).counts.windows[id])
  {
    hide Balanced, Next, Linked;
    StartInv();
    RunInv(START, ops);
  }

  /** Once the aggregate is flushed and nothing was dropped, replaying the log gives every window and every
    * client the totals the live history has. */
  lemma ReplayRestores(ops: seq<Op>)
    requires Run(START, ops).agg == map[] && Run(START, ops).dropped == 0
    ensures var l := Run(START, ops);
            var back := Replay(l.log);
            && back.windows.Keys == l.counts.windows.Keys
            && (forall id :: id in l.counts.windows ==> back.windows[id].requests == l.counts.windows[id].requests)
            && (forall ip :: StatsOf(back, ip) == StatsOf(l.counts, ip))
  {
    hide Balanced, Next, Run;
    StartInv();
    RunInv(START, ops);
    var l := Run(START, ops);
    var back := Replay(l.log);
    forall id | id in l.counts.windows ensures back.windows[id].requests == l.counts.windows[id].requests {
      NothingWaits(OfWindow(id));
      assert WindowLinked(l.counts, back, l.agg, id);
    }
    forall ip ensures StatsOf(back, ip) == StatsOf(l.counts, ip) {
      NothingWaits(OfClient(ip));
      assert ClientLinked(l.counts, back, l.agg, ip);
    }
  }

  // ----- a flood is aggregated -----

  /** A blocked request of ip under ban id, logged by itself. */
  predicate IsRaw(ev: Event, id: nat, ip: Addr) {
    ev.RequestEvent? && ev.blocked && ev.ban == id && ev.ip == ip
  }

  function RawCount(log: seq<Event>, id: nat, ip: Addr): nat {
    if log == [] then 0
    else RawCount(log[..|log| - 1], id, ip) + if IsRaw(log[|log| - 1], id, ip) then 1 else 0
  }

  lemma RawSnoc(log: seq<Event>, ev: Event, id: nat, ip: Addr)
    ensures RawCount(log + [ev], id, ip) == RawCount(log, id, ip) + if IsRaw(ev, id, ip) then 1 else 0
  {
    assert (log + [ev])[..|log|] == log;
  }

  /** How often the window has let a request of ip be logged, or refused to once the hundred were used up. */
  function LoggedBy(c: Counts, id: nat, ip: Addr): nat {
    if id in c.windows && ip in c.windows[id].logged then c.windows[id].logged[ip] else 0
  }

  ghost predicate RawOk(l: Live, id: nat, ip: Addr) {
    var n := LoggedBy(l.counts, id, ip);
    RawCount(l.log, id, ip) == if n < RAW_PER_BAN then n else RAW_PER_BAN
  }

  lemma AddRequestLogs(c: Counts, who: Addr, blocked: bool, failed: bool, triggered: bool, id: nat, ip: Addr)
    ensures LoggedBy(AddRequest(c, who, blocked, failed, triggered), id, ip) == LoggedBy(c, id, ip)
  {
  }

  lemma NextRaw(l: Live, op: Op, id: nat, ip: Addr)
    requires RawOk(l, id, ip) && id != 0
    ensures RawOk(Next(l, op), id, ip)
  {
    hide Lists, AddRequest, Tally, TallyRest, AggPlus;
    if Enabled(l, op) {
      var l' := Next(l, op);
      match op
      case NewBan(i) => RawSnoc(l.log, BanEvent(i), id, ip);
      case FlushOne(key, items) => RawSnoc(l.log, AggEvent(key.0, key.1, l.agg[key].n, items), id, ip);
      case Request(who, path, failed, meets) => RecordRaw(l, who, path, failed, meets, id, ip);
    }
  }

  lemma RecordRaw(l: Live, who: Addr, path: string, failed: bool, meets: Meets, id: nat, ip: Addr)
    requires RawOk(l, id, ip) && id != 0
    ensures RawOk(Record(l, who, path, failed, meets), id, ip)
  {
    hide AddRequest, Tally, TallyRest, AggPlus, RawCount;
    match meets
    case NoBan =>
      AddRequestLogs(l.counts, who, false, failed, false, id, ip);
      RawSnoc(l.log, RequestEvent(who, path, false, failed, false, 0), id, ip);
    case SetOff(i, triggered) =>
      AddRequestLogs(l.counts, who, false, failed, triggered, id, ip);
      RawSnoc(l.log, RequestEvent(who, path, false, failed, triggered, i), id, ip);
    case Blocked(i) =>
      if i !in l.counts.windows {
        AddRequestLogs(l.counts, who, true, failed, false, id, ip);
        RawSnoc(l.log, RequestEvent(who, path, true, failed, false, 0), id, ip);
      } else {
        var (w, raw) := LogRaw(Counted(l.counts.windows[i], who, path, 1), who);
        AddRequestLogs(l.counts.(windows := l.counts.windows[i := w]), who, true, failed, false, id, ip);
        RawSnoc(l.log, RequestEvent(who, path, true, failed, false, i), id, ip);
      }
  }

  lemma {:induction false} RunRaw(l: Live, ops: seq<Op>, id: nat, ip: Addr)
    requires RawOk(l, id, ip) && id != 0
    ensures RawOk(Run(l, ops), id, ip)
    decreases |ops|
  {
    hide RawOk, Next;
    if ops != [] {
      NextRaw(l, ops[0], id, ip);
      RunRaw(Next(l, ops[0]), ops[1..], id, ip);
    }
  }

  /** Over any run one client adds at most a hundred lines of its own to the log per ban, however many requests of
    * it the ban turns away: as many as the window counted for it, up to a hundred. */
  lemma FloodIsAggregated(ops: seq<Op>, id: nat, ip: Addr)
    requires id != 0
    ensures var l := Run(START, ops);
            var n := LoggedBy(l.counts, id, ip);
            && RawCount(l.log, id, ip) <= RAW_PER_BAN
            && RawCount(l.log, id, ip) == if n < RAW_PER_BAN then n else RAW_PER_BAN
  {
    hide Run;
    RunRaw(START, ops, id, ip);
  }
}
