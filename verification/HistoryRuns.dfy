/** What the live history has counted, over whole runs (history.go, history_log.go). */
module HistoryRuns {
  import opened Addresses
  import opened Tallies
  import opened History

  /** A class of recorded requests: a client's, or those one ban turned away. */
  datatype Kind =
    | Every(ip: Addr)
    | TurnedAway(ip: Addr)
    | Failed(ip: Addr)
    | SettingOff(ip: Addr)
    | Under(ban: nat)
    | OnPath(ban: nat, path: string)
    | By(ban: nat, ip: Addr)

  /** A request that is turned away is not an error as well. */
  predicate Is(op: Op, kind: Kind) {
    op.Request? &&
    match kind
    case Every(ip) => op.ip == ip
    case TurnedAway(ip) => op.ip == ip && op.meets.Blocked?
    case Failed(ip) => op.ip == ip && !op.meets.Blocked? && op.failed
    case SettingOff(ip) => op.ip == ip && op.meets.SetOff? && op.meets.triggered
    case Under(ban) => op.meets == Blocked(ban)
    case OnPath(ban, path) => op.meets == Blocked(ban) && op.path == path
    case By(ban, ip) => op.meets == Blocked(ban) && op.ip == ip
  }

  ghost function One(l: Live, op: Op, kind: Kind): nat {
    if Enabled(l, op) && Is(op, kind) then 1 else 0
  }

  /** How many requests of a kind a run from l records. */
  ghost function Number(l: Live, ops: seq<Op>, kind: Kind): nat
    decreases |ops|
  {
    if ops == [] then 0 else One(l, ops[0], kind) + Number(Next(l, ops[0]), ops[1..], kind)
  }

  // ----- a client's totals -----

  lemma StatsStep(l: Live, op: Op, ip: Addr)
    ensures var s := StatsOf(l.counts, ip);
            StatsOf(Next(l, op).counts, ip)
            == Stats(s.requests + One(l, op, Every(ip)), s.blocked + One(l, op, TurnedAway(ip)),
                     s.errors + One(l, op, Failed(ip)), s.triggered + One(l, op, SettingOff(ip)))
  {
    hide AddRequest, Counted, AggAdd, LogRaw, Lists, StatsOf;
    if Enabled(l, op) {
      match op
      case NewBan(id) => SameStats(l.counts, Next(l, op).counts, ip);
      case FlushOne(key, items) => SameStats(l.counts, Next(l, op).counts, ip);
      case Request(who, path, failed, meets) =>
        var refused, triggered := meets.Blocked?, meets.SetOff? && meets.triggered;
        RecordClients(l, who, path, failed, meets);
        AddRequestStats(l.counts, who, refused, failed, triggered, ip);
        SameStats(AddRequest(l.counts, who, refused, failed, triggered), Next(l, op).counts, ip);
    }
  }

  lemma RecordClients(l: Live, ip: Addr, path: string, failed: bool, meets: Meets)
    ensures Record(l, ip, path, failed, meets).counts.clients
            == AddRequest(l.counts, ip, meets.Blocked?, failed, meets.SetOff? && meets.triggered).clients
  {
    hide Counted, LogRaw;
  }

  /** A client's totals are the numbers of its requests: all of them, those turned away, the failed ones among the
    * others, and those that set off a ban. */
  lemma {:induction false} ClientTotals(l: Live, ops: seq<Op>, ip: Addr)
    ensures var s := StatsOf(l.counts, ip);
            StatsOf(Run(l, ops).counts, ip)
            == Stats(s.requests + Number(l, ops, Every(ip)), s.blocked + Number(l, ops, TurnedAway(ip)),
                     s.errors + Number(l, ops, Failed(ip)), s.triggered + Number(l, ops, SettingOff(ip)))
    decreases |ops|
  {
    hide Next, One, StatsOf;
    if ops != [] {
      StatsStep(l, ops[0], ip);
      ClientTotals(Next(l, ops[0]), ops[1..], ip);
    }
  }

  // ----- a ban's totals -----

  /** m tells k's number exactly, unless k came only when there were max others. */
  predicate Tells<K>(m: map<K, int>, k: K, max: nat, n: nat) {
    if k in m then m[k] == n else n == 0 || |m| >= max
  }

  /** Of one ban: the total, a path's and a client's number, and how often the client was noted for the log. */
  ghost predicate WindowTells(l: Live, id: nat, path: string, ip: Addr, n: nat, onPath: nat, own: nat) {
    if id in l.counts.windows then
      var w := l.counts.windows[id];
      && w.requests == n && Tells(w.paths, path, WINDOW_PATHS, onPath) && Tells(w.clients, ip, WINDOW_CLIENTS, own)
      && Tells(w.logged, ip, WINDOW_CLIENTS * 10, own)
    else
      n == 0 && onPath == 0 && own == 0
  }

  lemma TallyTells<K(!new)>(m: map<K, int>, key: K, k: K, max: nat, n: nat)
    requires Tells(m, k, max, n)
    ensures Tells(Tally(m, key, max, 1), k, max, n + if key == k then 1 else 0)
  {
    var m' := Tally(m, key, max, 1);
    if m' != m {
      assert m'.Keys == m.Keys + {key};
    }
  }

  lemma LoggedTells(w: Window, who: Addr, ip: Addr, n: nat)
    requires Tells(w.logged, ip, WINDOW_CLIENTS * 10, n)
    ensures Tells(LogRaw(w, who).0.logged, ip, WINDOW_CLIENTS * 10, n + if who == ip then 1 else 0)
  {
    var m, m' := w.logged, LogRaw(w, who).0.logged;
    if m' != m {
      assert m'.Keys == m.Keys + {who};
    }
  }

  lemma WindowStep(l: Live, op: Op, id: nat)
    requires id != 0
    ensures var l' := Next(l, op);
            if One(l, op, Under(id)) == 1 then
              && id in l.counts.windows && id in l'.counts.windows
              && l'.counts.windows[id] == LogRaw(Counted(l.counts.windows[id], op.ip, op.path, 1), op.ip).0
            else if id in l.counts.windows then
              id in l'.counts.windows && l'.counts.windows[id] == l.counts.windows[id]
            else
              id in l'.counts.windows ==> l'.counts.windows[id] == NEW_WINDOW
  {
    hide Counted, LogRaw, Lists;
  }

  lemma TellsStep(l: Live, op: Op, id: nat, path: string, ip: Addr, n: nat, onPath: nat, own: nat)
    requires id != 0 && WindowTells(l, id, path, ip, n, onPath, own)
    ensures WindowTells(Next(l, op), id, path, ip, n + One(l, op, Under(id)), onPath + One(l, op, OnPath(id, path)),
                        own + One(l, op, By(id, ip)))
  {
    hide Next, LogRaw, Tally, TallyRest, Enabled, Tells;
    WindowStep(l, op, id);
    if One(l, op, Under(id)) == 1 {
      var w := l.counts.windows[id];
      TallyTells(w.paths, op.path, path, WINDOW_PATHS, onPath);
      TallyTells(w.clients, op.ip, ip, WINDOW_CLIENTS, own);
      LoggedTells(Counted(w, op.ip, op.path, 1), op.ip, ip, own);
      LoggedKeeps(Counted(w, op.ip, op.path, 1), op.ip);
    } else {
      NewTells(path, ip);
    }
  }

  lemma NewTells(path: string, ip: Addr)
    ensures var w := NEW_WINDOW;
            && Tells(w.paths, path, WINDOW_PATHS, 0) && Tells(w.clients, ip, WINDOW_CLIENTS, 0)
            && Tells(w.logged, ip, WINDOW_CLIENTS * 10, 0)
  {
  }

  lemma LoggedKeeps(w: Window, ip: Addr)
    ensures LogRaw(w, ip).0 == w.(logged := LogRaw(w, ip).0.logged)
  {
  }

  lemma {:induction false} RunTells(l: Live, ops: seq<Op>, id: nat, path: string, ip: Addr, n: nat, onPath: nat, own: nat)
    requires id != 0 && WindowTells(l, id, path, ip, n, onPath, own)
    ensures WindowTells(Run(l, ops), id, path, ip, n + Number(l, ops, Under(id)), onPath + Number(l, ops, OnPath(id, path)),
                        own + Number(l, ops, By(id, ip)))
    decreases |ops|
  {
    hide Next, One, WindowTells;
    if ops != [] {
      TellsStep(l, ops[0], id, path, ip, n, onPath, own);
      RunTells(Next(l, ops[0]), ops[1..], id, path, ip, n + One(l, ops[0], Under(id)),
               onPath + One(l, ops[0], OnPath(id, path)), own + One(l, ops[0], By(id, ip)));
    }
  }

  /** Over any run a ban's total is the number of requests it turned away, and each path and client it lists stands
    * with exactly its own number; one that is not listed had none, unless a hundred others fill the list. */
  lemma BanTotals(ops: seq<Op>, id: nat, path: string, ip: Addr)
    requires id in Run(START, ops).counts.windows && id != 0
    ensures var w := Run(START, ops).counts.windows[id];
            && w.requests == Number(START, ops, Under(id))
            && (if path in w.paths then w.paths[path] == Number(START, ops, OnPath(id, path))
                else Number(START, ops, OnPath(id, path)) == 0 || |w.paths| >= 100)
            && (if ip in w.clients then w.clients[ip] == Number(START, ops, By(id, ip))
                else Number(START, ops, By(id, ip)) == 0 || |w.clients| >= 100)
  {
    hide Run, Number;
    RunTells(START, ops, id, path, ip, 0, 0, 0);
  }

  /** The first hundred requests of a client a ban turns away are lines of their own in the log, while no more than a
    * thousand clients are noted for it. */
  lemma FirstHundredLogged(ops: seq<Op>, id: nat, ip: Addr)
    requires id in Run(START, ops).counts.windows && id != 0
    ensures var l, n := Run(START, ops), Number(START, ops, By(id, ip));
            ip in l.counts.windows[id].logged || |l.counts.windows[id].logged| < 1000 ==>
              RawCount(l.log, id, ip) == if n < 100 then n else 100
  {
    hide Run, Number, RawCount;
    RunTells(START, ops, id, "", ip, 0, 0, 0);
    FloodIsAggregated(ops, id, ip);
  }

  // ----- what is dropped -----

  /** A request is dropped from the log exactly when it is not logged by itself, its client has no aggregate under the
    * ban yet, and there are fifty thousand others. */
  lemma DropsWhenFull(l: Live, op: Op)
    ensures Next(l, op).dropped != l.dropped <==>
              && Enabled(l, op) && op.Request? && op.meets.Blocked? && op.meets.window in l.counts.windows
              && !LogRaw(Counted(l.counts.windows[op.meets.window], op.ip, op.path, 1), op.ip).1
              && (op.meets.window, op.ip) !in l.agg && |l.agg| >= 50000
    ensures l.dropped <= Next(l, op).dropped <= l.dropped + 1
  {
    hide AddRequest, Counted, LogRaw, Lists;
  }

  /** A run drops nothing unless it fills the aggregate. */
  lemma {:induction false} NothingDropped(l: Live, ops: seq<Op>)
    requires forall i :: 0 <= i < |ops| ==> |Run(l, ops[..i]).agg| < 50000
    ensures Run(l, ops).dropped == l.dropped
    decreases |ops|
  {
    hide Next;
    if ops != [] {
      assert ops[..0] == [];
      DropsWhenFull(l, ops[0]);
      forall i | 0 <= i < |ops[1..]| ensures |Run(Next(l, ops[0]), ops[1..][..i]).agg| < 50000 {
        assert ops[..i + 1][1..] == ops[1..][..i];
        assert Run(l, ops[..i + 1]) == Run(Next(l, ops[0]), ops[1..][..i]);
      }
      NothingDropped(Next(l, ops[0]), ops[1..]);
    }
  }
}
