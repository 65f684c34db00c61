/** Reading the request log back at startup: rotated files oldest first, an age limit, lines that cannot be read
  * (history_log.go). */
module HistoryReplay {
  import opened Addresses
  import opened History
  import opened Tallies

  /** One line as the scanner hands it over; TooLong is where it gives up on the file. */
  datatype Line = Blank | Unreadable | TooLong | Entry(at: int, ev: Event)

  datatype LogFile = Missing | Denied | Present(lines: seq<Line>)

  datatype ReplayStats = ReplayStats(files: nat, events: nat, bad: nat, aged: nat)

  const NOTHING_READ := ReplayStats(0, 0, 0, 0)

  /** Only requests grow too old; bans are always applied. */
  predicate Old(l: Line, cutoff: int) {
    l.Entry? && !l.ev.BanEvent? && l.at < cutoff
  }

  // ----- what a replay applies -----

  function Kept(lines: seq<Line>, cutoff: int): seq<Event> {
    if lines == [] || lines[0].TooLong? then []
    else (if lines[0].Entry? && !Old(lines[0], cutoff) then [lines[0].ev] else []) + Kept(lines[1..], cutoff)
  }

  function BadLines(lines: seq<Line>): nat {
    if lines == [] then 0
    else if lines[0].TooLong? then 1
    else (if lines[0].Unreadable? then 1 else 0) + BadLines(lines[1..])
  }

  function OldLines(lines: seq<Line>, cutoff: int): nat {
    if lines == [] || lines[0].TooLong? then 0
    else (if Old(lines[0], cutoff) then 1 else 0) + OldLines(lines[1..], cutoff)
  }

  /** Missing files are skipped; one that cannot be opened ends the replay. */
  function Events(files: seq<LogFile>, cutoff: int): seq<Event> {
    if files == [] || files[0].Denied? then []
    else (if files[0].Present? then Kept(files[0].lines, cutoff) else []) + Events(files[1..], cutoff)
  }

  function Plus(a: ReplayStats, lines: seq<Line>, cutoff: int): ReplayStats {
    ReplayStats(a.files + 1, a.events + |Kept(lines, cutoff)|, a.bad + BadLines(lines), a.aged + OldLines(lines, cutoff))
  }

  function StatsFrom(a: ReplayStats, files: seq<LogFile>, cutoff: int): ReplayStats
    decreases |files|
  {
    if files == [] || files[0].Denied? then a
    else StatsFrom(if files[0].Present? then Plus(a, files[0].lines, cutoff) else a, files[1..], cutoff)
  }

  predicate AllOpen(files: seq<LogFile>) {
    forall i :: 0 <= i < |files| ==> !files[i].Denied?
  }

  /** The files from path.n down to path.1, then path itself. */
  function OldestFirst(rotated: seq<LogFile>, current: LogFile): seq<LogFile> {
    if rotated == [] then [current] else [rotated[|rotated| - 1]] + OldestFirst(rotated[..|rotated| - 1], current)
  }

  // ----- the replay -----

  lemma KeptOne(done: seq<Event>, lines: seq<Line>, cutoff: int)
    requires lines != []
    ensures lines[0].TooLong? ==> done + Kept(lines, cutoff) == done
    ensures !lines[0].TooLong? ==>
              done + Kept(lines, cutoff)
              == (if lines[0].Entry? && !Old(lines[0], cutoff) then done + [lines[0].ev] else done) + Kept(lines[1..], cutoff)
  {
    var line, more := lines[0], Kept(lines[1..], cutoff);
    if line.TooLong? {
      assert done + [] == done;
    } else if line.Entry? && !Old(line, cutoff) {
      Regroup(done, [line.ev], more);
    } else {
      assert [] + more == more;
    }
  }

  lemma Regroup(a: seq<Event>, b: seq<Event>, c: seq<Event>)
    ensures a + (b + c) == a + b + c
  {
  }

  /** Apply one file's lines to what the files before it gave. */
  method ReplayFile(before: Counts, st: ReplayStats, lines: seq<Line>, cutoff: int, ghost done: seq<Event>)
    returns (c: Counts, st': ReplayStats)
    requires before == Replay(done)
    ensures c == Replay(done + Kept(lines, cutoff)) && st' == Plus(st, lines, cutoff)
  {
    hide ApplyEvent, Replay;
    c, st' := before, st.(files := st.files + 1);
    ghost var so := done;
    var i := 0;
    assert lines[0..] == lines;
    while i < |lines|
      invariant 0 <= i <= |lines| && c == Replay(so) && so + Kept(lines[i..], cutoff) == done + Kept(lines, cutoff)
      invariant st'.files == st.files + 1 && st'.events + |Kept(lines[i..], cutoff)| == st.events + |Kept(lines, cutoff)|
      invariant st'.bad + BadLines(lines[i..]) == st.bad + BadLines(lines)
      invariant st'.aged + OldLines(lines[i..], cutoff) == st.aged + OldLines(lines, cutoff)
    {
      var line := lines[i];
      assert lines[i..][0] == line && lines[i..][1..] == lines[i + 1..];
      KeptOne(so, lines[i..], cutoff);
      if line.TooLong? {
        st' := st'.(bad := st'.bad + 1);
        return;
      }
      if line.Unreadable? {
        st' := st'.(bad := st'.bad + 1);
      } else if line.Entry? && !line.ev.BanEvent? && line.at < cutoff {
        st' := st'.(aged := st'.aged + 1);
      } else if line.Entry? {
        ReplaySnoc(so, line.ev);
        c, st' := ApplyEvent(c, line.ev), st'.(events := st'.events + 1);
        so := so + [line.ev];
      }
      i := i + 1;
    }
    assert so + [] == so;
  }

  lemma EventsOne(done: seq<Event>, files: seq<LogFile>, cutoff: int)
    requires files != []
    ensures done + Events(files, cutoff)
            == if files[0].Denied? then done
               else (if files[0].Present? then done + Kept(files[0].lines, cutoff) else done) + Events(files[1..], cutoff)
  {
    hide Kept;
    var more := Events(files[1..], cutoff);
    if files[0].Denied? {
      assert done + [] == done;
    } else if files[0].Present? {
      Regroup(done, Kept(files[0].lines, cutoff), more);
    } else {
      assert [] + more == more;
    }
  }

  lemma StatsOne(st: ReplayStats, files: seq<LogFile>, cutoff: int)
    requires files != []
    ensures StatsFrom(st, files, cutoff)
            == if files[0].Denied? then st
               else StatsFrom(if files[0].Present? then Plus(st, files[0].lines, cutoff) else st, files[1..], cutoff)
  {
    hide Plus;
  }

  lemma NoFiles(done: seq<Event>, st: ReplayStats, cutoff: int)
    ensures done + Events([], cutoff) == done && StatsFrom(st, [], cutoff) == st && AllOpen([])
  {
    assert done + [] == done;
  }

  /** Read the rotated files and then the current one. ok is false when one of them could not be opened. */
  method ReplayLog(rotated: seq<LogFile>, current: LogFile, cutoff: int) returns (c: Counts, st: ReplayStats, ok: bool)
    ensures var files := OldestFirst(rotated, current);
            && c == Replay(Events(files, cutoff)) && st == StatsFrom(NOTHING_READ, files, cutoff)
            && (ok <==> AllOpen(files))
  {
    hide ApplyEvent, Replay, Kept, BadLines, OldLines, Plus, Events, StatsFrom, OldestFirst, AllOpen;
    c, st := Counts(map[], map[]), NOTHING_READ;
    ghost var files, done: seq<Event> := OldestFirst(rotated, current), [];
    NothingReplayed();
    var i := |rotated|;
    assert rotated[..i] == rotated && done + Events(files, cutoff) == Events(files, cutoff);
    while true
      invariant 0 <= i <= |rotated| && c == Replay(done)
      invariant done + Events(OldestFirst(rotated[..i], current), cutoff) == Events(files, cutoff)
      invariant StatsFrom(st, OldestFirst(rotated[..i], current), cutoff) == StatsFrom(NOTHING_READ, files, cutoff)
      invariant AllOpen(OldestFirst(rotated[..i], current)) <==> AllOpen(files)
      decreases i
    {
      var f := if i > 0 then rotated[i - 1] else current;
      ghost var left := OldestFirst(rotated[..i], current);
      NextFile(rotated, current, i);
      EventsOne(done, left, cutoff);
      StatsOne(st, left, cutoff);
      if f.Denied? {
        return c, st, false;
      }
      if f.Present? {
        c, st := ReplayFile(c, st, f.lines, cutoff, done);
        done := done + Kept(f.lines, cutoff);
      }
      if i == 0 {
        NoFiles(done, st, cutoff);
        return c, st, true;
      }
      i := i - 1;
    }
  }

  lemma NothingReplayed()
    ensures Replay([]) == Counts(map[], map[])
  {
  }

  lemma NextFile(rotated: seq<LogFile>, current: LogFile, i: nat)
    requires i <= |rotated|
    ensures var left := OldestFirst(rotated[..i], current);
            && left != [] && left[0] == (if i > 0 then rotated[i - 1] else current)
            && left[1..] == (if i > 0 then OldestFirst(rotated[..i - 1], current) else [])
            && (AllOpen(left) <==> !left[0].Denied? && AllOpen(left[1..]))
  {
    if i > 0 {
      assert rotated[..i][..i - 1] == rotated[..i - 1];
    }
    var left := OldestFirst(rotated[..i], current);
    assert forall j :: 0 < j < |left| ==> left[j] == left[1..][j - 1];
    assert forall j :: 0 <= j < |left[1..]| ==> left[1..][j] == left[j + 1];
  }

  // ----- what survives it -----

  /** The events of every line, whatever its age. */
  function AllEvents(files: seq<LogFile>): seq<Event> {
    if files == [] then []
    else (if files[0].Present? then Entries(files[0].lines) else []) + AllEvents(files[1..])
  }

  function Entries(lines: seq<Line>): seq<Event> {
    if lines == [] then []
    else (if lines[0].Entry? then [lines[0].ev] else []) + Entries(lines[1..])
  }

  /** Nothing to lose: every file opens, every line reads, and none is too old. */
  ghost predicate Clean(files: seq<LogFile>, cutoff: int) {
    forall i :: 0 <= i < |files| ==> !files[i].Denied? && (files[i].Present? ==> CleanLines(files[i].lines, cutoff))
  }

  ghost predicate CleanLines(lines: seq<Line>, cutoff: int) {
    forall j :: 0 <= j < |lines| ==> lines[j].Entry? && !Old(lines[j], cutoff)
  }

  lemma {:induction false} CleanKept(lines: seq<Line>, cutoff: int)
    requires CleanLines(lines, cutoff)
    ensures Kept(lines, cutoff) == Entries(lines)
  {
    if lines != [] {
      assert forall j :: 0 <= j < |lines[1..]| ==> lines[1..][j] == lines[j + 1];
      CleanKept(lines[1..], cutoff);
    }
  }

  lemma {:induction false} CleanEvents(files: seq<LogFile>, cutoff: int)
    requires Clean(files, cutoff)
    ensures Events(files, cutoff) == AllEvents(files)
  {
    hide Kept, Entries, CleanLines;
    if files != [] {
      assert forall j :: 0 <= j < |files[1..]| ==> files[1..][j] == files[j + 1];
      CleanEvents(files[1..], cutoff);
      if files[0].Present? {
        CleanKept(files[0].lines, cutoff);
      }
    }
  }

  /** However a flushed history's log is spread over rotated files, a start that finds them clean gives every window
    * and every client the totals the live history had. */
  lemma RestartRestores(ops: seq<Op>, rotated: seq<LogFile>, current: LogFile, cutoff: int)
    requires Run(START, ops).agg == map[] && Run(START, ops).dropped == 0
    requires var files := OldestFirst(rotated, current);
             AllEvents(files) == Run(START, ops).log && Clean(files, cutoff)
    ensures var l := Run(START, ops);
            var back := Replay(Events(OldestFirst(rotated, current), cutoff));
            && back.windows.Keys == l.counts.windows.Keys
            && (forall id :: id in l.counts.windows ==> back.windows[id].requests == l.counts.windows[id].requests)
            && (forall ip :: StatsOf(back, ip) == StatsOf(l.counts, ip))
  {
    hide Run, Replay, Events, AllEvents, Clean, OldestFirst, StatsOf;
    CleanEvents(OldestFirst(rotated, current), cutoff);
    ReplayRestores(ops);
  }

  function BansIn(log: seq<Event>): seq<nat> {
    if log == [] then []
    else BansIn(log[..|log| - 1])
         + if log[|log| - 1].BanEvent? && log[|log| - 1].id != 0 then [log[|log| - 1].id] else []
  }

  lemma {:induction false} WindowsAreBans(log: seq<Event>)
    ensures forall id :: id in Replay(log).windows <==> id in BansIn(log)
  {
    hide Counted, Aggregated;
    if log != [] {
      WindowsAreBans(log[..|log| - 1]);
    }
  }

  lemma {:induction false} BansJoin(a: seq<Event>, b: seq<Event>)
    ensures BansIn(a + b) == BansIn(a) + BansIn(b)
  {
    if b == [] {
      assert a + b == a;
    } else {
      assert (a + b)[..|a + b| - 1] == a + b[..|b| - 1];
      BansJoin(a, b[..|b| - 1]);
    }
  }

  lemma {:induction false} KeptBans(lines: seq<Line>, early: int, late: int)
    ensures BansIn(Kept(lines, early)) == BansIn(Kept(lines, late))
  {
    if lines != [] && !lines[0].TooLong? {
      KeptBans(lines[1..], early, late);
      var line := lines[0];
      BansJoin(if line.Entry? && !Old(line, early) then [line.ev] else [], Kept(lines[1..], early));
      BansJoin(if line.Entry? && !Old(line, late) then [line.ev] else [], Kept(lines[1..], late));
    }
  }

  lemma {:induction false} EventBans(files: seq<LogFile>, early: int, late: int)
    ensures BansIn(Events(files, early)) == BansIn(Events(files, late))
  {
    hide Kept, BansIn;
    if files != [] && !files[0].Denied? {
      EventBans(files[1..], early, late);
      if files[0].Present? {
        KeptBans(files[0].lines, early, late);
        BansJoin(Kept(files[0].lines, early), Events(files[1..], early));
        BansJoin(Kept(files[0].lines, late), Events(files[1..], late));
      } else {
        assert [] + Events(files[1..], early) == Events(files[1..], early);
        assert [] + Events(files[1..], late) == Events(files[1..], late);
      }
    }
  }

  /** The age limit forgets requests, never a ban: every cutoff gives the same windows. */
  lemma CutoffKeepsBans(files: seq<LogFile>, early: int, late: int)
    ensures Replay(Events(files, early)).windows.Keys == Replay(Events(files, late)).windows.Keys
  {
    hide Replay, Events, BansIn;
    EventBans(files, early, late);
    WindowsAreBans(Events(files, early));
    WindowsAreBans(Events(files, late));
  }
}
