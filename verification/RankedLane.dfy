/** The priority lane: a semaphore whose waiters are served by rank, then arrival (priority.go). */
module RankedLane {
  import opened Results

  /** A place in the lane's waiting list. */
  datatype Ticket = Ticket(rank: int, num: nat)

  datatype Lane = Lane(cap: nat, used: nat, next: nat, waiting: seq<Ticket>)

  datatype Entry = Taken | Refused | Queued(ticket: Ticket)

  /** a is served before b. */
  predicate Before(a: Ticket, b: Ticket) {
    a.rank > b.rank || (a.rank == b.rank && a.num < b.num)
  }

  /** Arrival order: later tickets carry larger numbers. */
  ghost predicate InArrivalOrder(ts: seq<Ticket>, next: nat) {
    && (forall i, j :: 0 <= i < j < |ts| ==> ts[i].num < ts[j].num)
    && (forall i :: 0 <= i < |ts| ==> ts[i].num < next)
  }

  ghost predicate IsBest(ts: seq<Ticket>, best: Ticket) {
    best in ts && forall t :: t in ts && t != best ==> Before(best, t)
  }

  function Without(ts: seq<Ticket>, t: Ticket): (r: seq<Ticket>)
    ensures forall x :: x in r ==> x in ts
    ensures t !in ts ==> r == ts
  {
    if ts == [] then []
    else if ts[0] == t then ts[1..]
    else [ts[0]] + Without(ts[1..], t)
  }

  lemma {:induction false} WithoutKeepsOthers(ts: seq<Ticket>, t: Ticket)
    ensures forall x :: x in ts && x != t ==> x in Without(ts, t)
  {
    if ts != [] {
      WithoutKeepsOthers(ts[1..], t);
    }
  }

  lemma {:induction false} WithoutSorted(ts: seq<Ticket>, t: Ticket, next: nat)
    requires InArrivalOrder(ts, next)
    ensures InArrivalOrder(Without(ts, t), next) && t !in Without(ts, t)
  {
    if ts != [] && ts[0] != t {
      var rest := ts[1..];
      assert InArrivalOrder(rest, next) by {
        assert forall i :: 0 <= i < |rest| ==> rest[i] == ts[i + 1];
      }
      WithoutSorted(rest, t, next);
      var r := Without(rest, t);
      forall i | 0 <= i < |r| ensures ts[0].num < r[i].num {
        assert r[i] in rest;
      }
    }
  }

  lemma WithoutKeepsOrder(ts: seq<Ticket>, t: Ticket, next: nat)
    requires InArrivalOrder(ts, next)
    ensures InArrivalOrder(Without(ts, t), next) && t !in Without(ts, t)
    ensures forall x :: x in ts && x != t ==> x in Without(ts, t)
  {
    WithoutKeepsOthers(ts, t);
    WithoutSorted(ts, t, next);
  }

  // ----- the critical sections -----

  function EnterSection(l: Lane, rank: int, mayWait: bool): (Lane, Entry) {
    if l.used < l.cap && l.waiting == [] then (l.(used := l.used + 1), Taken)
    else if !mayWait then (l, Refused)
    else var t := Ticket(rank, l.next);
         (l.(next := l.next + 1, waiting := l.waiting + [t]), Queued(t))
  }

  /** Take t off the waiting list: it gave up, or release handed it a slot directly. */
  function Dequeue(l: Lane, t: Ticket): Lane {
    l.(waiting := Without(l.waiting, t))
  }

  function FreeSlot(l: Lane): Lane {
    if l.used > 0 then l.(used := l.used - 1) else l
  }

  // ----- the semaphore -----

  class SemWaiter {
    const rank: int
    const num: nat
    var granted: bool

    constructor (rank: int, num: nat)
      ensures this.rank == rank && this.num == num && !granted
    {
      this.rank, this.num, granted := rank, num, false;
    }

    ghost function Place(): Ticket { Ticket(rank, num) }
  }

  ghost function TicketsOf(ws: seq<SemWaiter>): (ts: seq<Ticket>)
    ensures |ts| == |ws| && forall i :: 0 <= i < |ws| ==> ts[i] == ws[i].Place()
  {
    seq(|ws|, i requires 0 <= i < |ws| => ws[i].Place())
  }

  lemma {:induction false} WithoutAt(ts: seq<Ticket>, k: nat)
    requires k < |ts| && forall i :: 0 <= i < k ==> ts[i] != ts[k]
    ensures Without(ts, ts[k]) == ts[..k] + ts[k + 1..]
  {
    if k == 0 {
      assert ts[..0] + ts[1..] == ts[1..];
    } else {
      WithoutAt(ts[1..], k - 1);
      assert ts[..k] + ts[k + 1..] == [ts[0]] + (ts[1..][..k - 1] + ts[1..][k..]);
    }
  }

  lemma RemoveAt(ws: seq<SemWaiter>, k: nat)
    requires k < |ws|
    requires forall i :: 0 <= i < k ==> TicketsOf(ws)[i] != TicketsOf(ws)[k]
    ensures TicketsOf(ws[..k] + ws[k + 1..]) == Without(TicketsOf(ws), ws[k].Place())
  {
    WithoutAt(TicketsOf(ws), k);
  }

  class RankedSem {
    const cap: nat
    var used: nat
    var num: nat
    var waiters: seq<SemWaiter>

    constructor (n: nat)
      ensures State() == Lane(n, 0, 0, []) && Valid()
    {
      cap, used, num, waiters := n, 0, 0, [];
    }

    ghost function State(): Lane
      reads this
    {
      Lane(cap, used, num, TicketsOf(waiters))
    }

    ghost predicate Valid()
      reads this, waiters
    {
      && InArrivalOrder(TicketsOf(waiters), num)
      && forall w :: w in waiters ==> !w.granted
    }

    /** The first critical section of acquire. */
    method Enter(rank: int, mayWait: bool) returns (taken: bool, w: SemWaiter?)
      requires Valid()
      modifies this
      ensures Valid()
      ensures (State(), if taken then Taken else if w == null then Refused else Queued(w.Place()))
           == EnterSection(old(State()), rank, mayWait)
      ensures w != null ==> !taken && fresh(w) && waiters == old(waiters) + [w]
      ensures taken <==> old(used) < cap && old(waiters) == []
      ensures taken ==> used == old(used) + 1 && waiters == old(waiters)
      ensures !taken && !mayWait ==> w == null && used == old(used) && waiters == old(waiters)
      ensures !taken && mayWait ==> w != null && w.rank == rank && w.num == old(num) && num == old(num) + 1 && used == old(used)
    {
      w := null;
      if used < cap && |waiters| == 0 {
        used := used + 1;
        return true, null;
      }
      if !mayWait {
        return false, null;
      }
      w := new SemWaiter(rank, num);
      num := num + 1;
      waiters := waiters + [w];
      taken := false;
      assert TicketsOf(waiters) == old(TicketsOf(waiters)) + [w.Place()];
    }

    /** The second critical section of acquire, entered when the wait ends by timer or cancellation. */
    method GiveUp(w: SemWaiter) returns (granted: bool)
      requires Valid()
      requires !w.granted ==> w in waiters
      modifies this
      ensures Valid() && granted == w.granted
      ensures State() == if granted then old(State()) else Dequeue(old(State()), w.Place())
    {
      if w.granted {
        return true;
      }
      granted := false;
      ghost var before := waiters;
      var i := 0;
      while waiters[i] != w
        invariant 0 <= i < |waiters| && waiters == before
        invariant w in waiters[i..]
        invariant forall k :: 0 <= k < i ==> waiters[k] != w
        decreases |waiters| - i
      {
        i := i + 1;
      }
      RemoveAt(before, i);
      WithoutKeepsOrder(TicketsOf(before), w.Place(), num);
      waiters := waiters[..i] + waiters[i + 1..];
    }

    /** Give a slot back: to the best waiter if anyone waits, else to the pool. */
    method Release() returns (ghost next: Option<Ticket>)
      requires Valid()
      modifies this, waiters
      ensures Valid()
      ensures next.None? <==> old(waiters) == []
      ensures next.None? ==> State() == FreeSlot(old(State()))
      ensures next.Some? ==> IsBest(old(State()).waiting, next.value) && State() == Dequeue(old(State()), next.value)
      ensures forall w :: w in old(waiters) ==> (w.granted <==> next == Some(w.Place()))
    {
      if |waiters| > 0 {
        ghost var ts := TicketsOf(waiters);
        var best := 0;
        var i := 1;
        while i < |waiters|
          invariant 0 <= best < i <= |waiters|
          invariant forall k :: 0 <= k < i && k != best ==> Before(ts[best], ts[k])
        {
          var w, b := waiters[i], waiters[best];
          assert ts[best] == b.Place() && ts[i] == w.Place();
          if w.rank > b.rank || (w.rank == b.rank && w.num < b.num) {
            best := i;
          }
          i := i + 1;
        }
        var w := waiters[best];
        RemoveAt(waiters, best);
        WithoutKeepsOrder(ts, w.Place(), num);
        waiters := waiters[..best] + waiters[best + 1..];
        w.granted := true;
        return Some(w.Place());
      }
      if used > 0 {
        used := used - 1;
      }
      next := None;
    }
  }

  // ----- every interleaving of unboundedly many requests -----

  datatype Thread =
    | Idle
    | Waiting(ticket: Ticket)
    | Granted(ticket: Ticket)  // handed a slot, not yet noticed
    | Holding

  /** served and abandoned record how each ticket left the waiting list. */
  datatype System = System(lane: Lane, threads: map<nat, Thread>, served: set<Ticket>, abandoned: set<Ticket>)

  datatype Step =
    | Acquire(t: nat, rank: int, mayWait: bool)
    | WakeUp(t: nat)             // the granted channel is seen closed
    | TimeUp(t: nat)             // timer or cancellation fires, then the lock is taken
    | GiveBack(t: nat, best: Ticket)

  ghost predicate Enabled(s: System, step: Step) {
    match step
    case Acquire(t, _, _) => t !in s.threads || s.threads[t].Idle?
    case WakeUp(t) => t in s.threads && s.threads[t].Granted?
    case TimeUp(t) => t in s.threads && (s.threads[t].Waiting? || s.threads[t].Granted?)
    case GiveBack(t, best) =>
      t in s.threads && s.threads[t].Holding? && (s.lane.waiting != [] ==> IsBest(s.lane.waiting, best))
  }

  ghost function Next(s: System, step: Step): System
    requires Enabled(s, step)
  {
    match step
    case Acquire(t, rank, mayWait) =>
      var (lane, e) := EnterSection(s.lane, rank, mayWait);
      s.(lane := lane, threads := s.threads[t := match e
                                                 case Taken => Holding
                                                 case Refused => Idle
                                                 case Queued(ticket) => Waiting(ticket)])
    case WakeUp(t) => s.(threads := s.threads[t := Holding])
    case TimeUp(t) =>
      if s.threads[t].Granted? then s.(threads := s.threads[t := Holding])
      else s.(lane := Dequeue(s.lane, s.threads[t].ticket), threads := s.threads[t := Idle],
              abandoned := s.abandoned + {s.threads[t].ticket})
    case GiveBack(t, best) =>
      var threads := s.threads[t := Idle];
      if s.lane.waiting == [] then s.(lane := FreeSlot(s.lane), threads := threads)
      else s.(lane := Dequeue(s.lane, best), threads := Notify(threads, best), served := s.served + {best})
  }

  ghost function Notify(threads: map<nat, Thread>, best: Ticket): map<nat, Thread> {
    map t | t in threads :: if threads[t] == Waiting(best) then Granted(best) else threads[t]
  }

  ghost function Occupied(threads: map<nat, Thread>): set<nat> {
    set t | t in threads && (threads[t].Granted? || threads[t].Holding?)
  }

  /** Slots are counted exactly, and the lane is full whenever anyone waits. */
  ghost predicate SlotsCounted(s: System) {
    && s.lane.used == |Occupied(s.threads)|
    && s.lane.used <= s.lane.cap
    && (s.lane.waiting != [] ==> s.lane.used == s.lane.cap)
  }

  /** Every listed ticket has its thread. */
  ghost predicate Owned(ts: seq<Ticket>, threads: map<nat, Thread>) {
    forall k :: k in ts ==> exists t :: t in threads && threads[t] == Waiting(k)
  }

  /** The waiting list holds exactly the tickets of the threads that wait. */
  ghost predicate TicketsMatch(s: System) {
    && InArrivalOrder(s.lane.waiting, s.lane.next)
    && (forall t :: t in s.threads && s.threads[t].Waiting? ==> s.threads[t].ticket in s.lane.waiting)
    && Owned(s.lane.waiting, s.threads)
    && (forall t, u :: t in s.threads && u in s.threads && t != u && s.threads[t].Waiting? && s.threads[u].Waiting?
          ==> s.threads[t].ticket != s.threads[u].ticket)
  }

  /** Nobody still waiting was passed by a later arrival of its own rank or a lower one. */
  ghost predicate NoneOvertaken(s: System) {
    && (forall k, g :: k in s.lane.waiting && g in s.served && k.num < g.num ==> g.rank > k.rank)
    && (forall g :: g in s.served + s.abandoned ==> g.num < s.lane.next && g !in s.lane.waiting)
  }

  ghost predicate Inv(s: System) {
    SlotsCounted(s) && TicketsMatch(s) && NoneOvertaken(s)
  }

  /** A new lane of cap slots. */
  function Start(cap: nat): System {
    System(Lane(cap, 0, 0, []), map[], {}, {})
  }

  lemma InvStart(cap: nat)
    ensures Inv(Start(cap))
  {
    assert Occupied(map[]) == {};
  }

  function OneIf(b: bool): nat { if b then 1 else 0 }

  lemma OccupiedAfterUpdate(threads: map<nat, Thread>, t: nat, th: Thread)
    ensures |Occupied(threads[t := th])| ==
            |Occupied(threads)| - OneIf(t in Occupied(threads)) + OneIf(th.Granted? || th.Holding?)
  {
    var was, now := Occupied(threads), Occupied(threads[t := th]);
    assert now - {t} == was - {t};
    assert |was - {t}| == |was| - OneIf(t in was) && |now - {t}| == |now| - OneIf(t in now);
  }

  lemma OccupiedAfterNotify(threads: map<nat, Thread>, best: Ticket, u: nat)
    requires u in threads && threads[u] == Waiting(best)
    requires forall t :: t in threads && t != u ==> threads[t] != Waiting(best)
    ensures |Occupied(Notify(threads, best))| == |Occupied(threads)| + 1
  {
    assert Occupied(Notify(threads, best)) == Occupied(threads) + {u};
  }

  lemma GiveBackCountsSlots(s: System, t: nat, best: Ticket)
    requires Inv(s) && Enabled(s, GiveBack(t, best))
    ensures SlotsCounted(Next(s, GiveBack(t, best)))
  {
    OccupiedAfterUpdate(s.threads, t, Idle);
    assert t in Occupied(s.threads);
    if s.lane.waiting != [] {
      var u :| u in s.threads && s.threads[u] == Waiting(best);
      OccupiedAfterNotify(s.threads[t := Idle], best, u);
    }
  }

  lemma KeepsSlotsCounted(s: System, step: Step)
    requires Inv(s) && Enabled(s, step)
    ensures SlotsCounted(Next(s, step))
  {
    match step
    case Acquire(t, _, _) => OccupiedAfterUpdate(s.threads, t, Next(s, step).threads[t]);
    case WakeUp(t) => OccupiedAfterUpdate(s.threads, t, Holding);
    case TimeUp(t) => OccupiedAfterUpdate(s.threads, t, Next(s, step).threads[t]);
    case GiveBack(t, best) => GiveBackCountsSlots(s, t, best);
  }

  lemma OwnedKept(s: System, n: System)
    requires Owned(s.lane.waiting, s.threads)
    requires forall k :: k in n.lane.waiting ==> k in s.lane.waiting
    requires forall u :: u in s.threads && s.threads[u].Waiting? && s.threads[u].ticket in n.lane.waiting
               ==> u in n.threads && n.threads[u] == s.threads[u]
    ensures Owned(n.lane.waiting, n.threads)
  {
    forall k | k in n.lane.waiting ensures exists u :: u in n.threads && n.threads[u] == Waiting(k) {
      var u :| u in s.threads && s.threads[u] == Waiting(k);
      assert n.threads[u] == Waiting(k);
    }
  }

  lemma AcquireKeepsTickets(s: System, t: nat, rank: int, mayWait: bool)
    requires Inv(s) && Enabled(s, Acquire(t, rank, mayWait))
    ensures TicketsMatch(Next(s, Acquire(t, rank, mayWait)))
  {
    var n := Next(s, Acquire(t, rank, mayWait));
    OwnedKept(s, n.(lane := s.lane));
    if n.threads[t].Waiting? {
      var k := n.threads[t].ticket;
      assert n.lane.waiting == s.lane.waiting + [k];
      assert k !in s.lane.waiting;
      assert forall x :: x in n.lane.waiting <==> x in s.lane.waiting || x == k;
    }
  }

  lemma LeaveKeepsTickets(s: System, t: nat)
    requires Inv(s)
    requires Enabled(s, WakeUp(t)) || Enabled(s, TimeUp(t))
    ensures Enabled(s, WakeUp(t)) ==> TicketsMatch(Next(s, WakeUp(t)))
    ensures Enabled(s, TimeUp(t)) ==> TicketsMatch(Next(s, TimeUp(t)))
  {
    if s.threads[t].Waiting? {
      WithoutKeepsOrder(s.lane.waiting, s.threads[t].ticket, s.lane.next);
    } else {
      OwnedKept(s, Next(s, WakeUp(t)));
    }
    OwnedKept(s, Next(s, TimeUp(t)));
  }

  lemma GiveBackKeepsTickets(s: System, t: nat, best: Ticket)
    requires Inv(s) && Enabled(s, GiveBack(t, best))
    ensures TicketsMatch(Next(s, GiveBack(t, best)))
  {
    if s.lane.waiting != [] {
      WithoutKeepsOrder(s.lane.waiting, best, s.lane.next);
    }
    OwnedKept(s, Next(s, GiveBack(t, best)));
  }

  lemma KeepsTicketsMatch(s: System, step: Step)
    requires Inv(s) && Enabled(s, step)
    ensures TicketsMatch(Next(s, step))
  {
    match step
    case Acquire(t, rank, mayWait) => AcquireKeepsTickets(s, t, rank, mayWait);
    case WakeUp(t) => LeaveKeepsTickets(s, t);
    case TimeUp(t) => LeaveKeepsTickets(s, t);
    case GiveBack(t, best) => GiveBackKeepsTickets(s, t, best);
  }

  lemma KeepsNoneOvertaken(s: System, step: Step)
    requires Inv(s) && Enabled(s, step)
    ensures NoneOvertaken(Next(s, step))
  {
    match step
    case TimeUp(t) =>
      if s.threads[t].Waiting? {
        WithoutKeepsOrder(s.lane.waiting, s.threads[t].ticket, s.lane.next);
      }
    case GiveBack(t, best) =>
      if s.lane.waiting != [] {
        WithoutKeepsOrder(s.lane.waiting, best, s.lane.next);
      }
    case _ =>
  }

  /** A newcomer never takes a slot while anyone waits. */
  lemma NewcomerWaitsItsTurn(s: System, t: nat, rank: int, mayWait: bool)
    requires Inv(s) && Enabled(s, Acquire(t, rank, mayWait)) && s.lane.waiting != []
    ensures !Next(s, Acquire(t, rank, mayWait)).threads[t].Holding?
    ensures Next(s, Acquire(t, rank, mayWait)).lane.used == s.lane.cap
  {
  }

  /** What an arrival gets: a slot at once if one is free, nothing if it will not wait, and otherwise the last place
    * of its rank. */
  lemma ArrivalGets(s: System, t: nat, rank: int, mayWait: bool)
    requires Inv(s) && Enabled(s, Acquire(t, rank, mayWait))
    ensures var n := Next(s, Acquire(t, rank, mayWait));
            && (s.lane.used < s.lane.cap ==>
                  n.threads[t].Holding? && n.lane.used == s.lane.used + 1 && n.lane.waiting == [] == s.lane.waiting)
            && (s.lane.used == s.lane.cap && !mayWait ==> n.threads[t].Idle? && n.lane == s.lane)
            && (s.lane.used == s.lane.cap && mayWait ==>
                  && n.threads[t].Waiting? && n.threads[t].ticket.rank == rank && n.lane.used == s.lane.used
                  && n.lane.waiting == s.lane.waiting + [n.threads[t].ticket]
                  && forall k :: k in s.lane.waiting && k.rank >= rank ==> Before(k, n.threads[t].ticket))
  {
    hide Occupied;
  }

  /** What a release gives: the slot to the waiter of the highest rank, the first to come among those, whose thread is
    * told, or back to the lane. */
  lemma ReleaseGives(s: System, t: nat, best: Ticket)
    requires Inv(s) && Enabled(s, GiveBack(t, best))
    ensures var n := Next(s, GiveBack(t, best));
            && n.threads[t].Idle?
            && (s.lane.waiting == [] ==> n.lane.used == s.lane.used - 1)
            && (s.lane.waiting != [] ==>
                  && n.lane.used == s.lane.used && best in s.lane.waiting && best !in n.lane.waiting
                  && (forall k :: k in s.lane.waiting && k != best ==>
                        best.rank > k.rank || (best.rank == k.rank && best.num < k.num))
                  && exists u :: u in s.threads && s.threads[u] == Waiting(best) && n.threads[u] == Granted(best))
            && forall u :: u in s.threads && u != t && s.threads[u] != Waiting(best) ==> n.threads[u] == s.threads[u]
  {
    assert t in Occupied(s.threads);
    if s.lane.waiting != [] {
      WithoutKeepsOrder(s.lane.waiting, best, s.lane.next);
      var u :| u in s.threads && s.threads[u] == Waiting(best);
      assert Next(s, GiveBack(t, best)).threads[u] == Granted(best);
    }
  }

  /** When a timer races with a grant, the thread ends up with the slot exactly when it was granted one. */
  lemma RaceSettled(s: System, t: nat)
    requires Inv(s) && Enabled(s, TimeUp(t))
    ensures var n := Next(s, TimeUp(t));
            if s.threads[t].Granted?
            then n.threads[t].Holding? && n.lane == s.lane
            else n.threads[t].Idle? && s.threads[t].ticket !in n.lane.waiting && n.lane.used == s.lane.used
  {
    if s.threads[t].Waiting? {
      WithoutKeepsOrder(s.lane.waiting, s.threads[t].ticket, s.lane.next);
    }
  }

  // ----- runs -----

  ghost predicate IsRun(s: System, steps: seq<Step>)
    decreases |steps|
  {
    steps == [] || (Enabled(s, steps[0]) && IsRun(Next(s, steps[0]), steps[1..]))
  }

  ghost function After(s: System, steps: seq<Step>): System
    requires IsRun(s, steps)
    decreases |steps|
  {
    if steps == [] then s else After(Next(s, steps[0]), steps[1..])
  }

  /** Every state of every run counts its slots, matches its tickets and lets nobody be overtaken. */
  lemma {:induction false} RunKeeps(s: System, steps: seq<Step>)
    requires Inv(s) && IsRun(s, steps)
    ensures Inv(After(s, steps))
    decreases |steps|
  {
    if steps != [] {
      KeepsSlotsCounted(s, steps[0]);
      KeepsTicketsMatch(s, steps[0]);
      KeepsNoneOvertaken(s, steps[0]);
      RunKeeps(Next(s, steps[0]), steps[1..]);
    }
  }

  /** In every state a new lane can reach. */
  lemma InvAlways(cap: nat, steps: seq<Step>)
    requires IsRun(Start(cap), steps)
    ensures Inv(After(Start(cap), steps))
  {
    InvStart(cap);
    RunKeeps(Start(cap), steps);
  }

  ghost function Ahead(ts: seq<Ticket>, k: Ticket): set<Ticket> {
    set t | t in ts && Before(t, k)
  }

  function GiveBacks(steps: seq<Step>): nat {
    if steps == [] then 0 else (if steps[0].GiveBack? then 1 else 0) + GiveBacks(steps[1..])
  }

  lemma Smaller(a: set<Ticket>, b: set<Ticket>)
    requires a <= b
    ensures |a| <= |b|
  {
    assert b == a + (b - a);
  }

  lemma RemovalShortens(ts: seq<Ticket>, x: Ticket, k: Ticket, next: nat)
    requires InArrivalOrder(ts, next)
    ensures |Ahead(Without(ts, x), k)| <= |Ahead(ts, k)|
    ensures IsBest(ts, x) && k in Without(ts, x) ==> |Ahead(Without(ts, x), k)| + 1 <= |Ahead(ts, k)|
  {
    WithoutKeepsOrder(ts, x, next);
    var was, now := Ahead(ts, k), Ahead(Without(ts, x), k);
    Smaller(now, was);
    if IsBest(ts, x) && k in Without(ts, x) {
      assert x in was && x !in now;
      Smaller(now, was - {x});
    }
  }

  /** One step never puts more tickets ahead of k, unless a higher rank arrives; a slot given back removes one. */
  lemma StepShortensQueue(s: System, step: Step, k: Ticket)
    requires Inv(s) && Enabled(s, step) && k in s.lane.waiting
    requires step.Acquire? ==> step.rank <= k.rank
    ensures var n := Next(s, step);
            k in n.lane.waiting ==>
              |Ahead(n.lane.waiting, k)| + (if step.GiveBack? then 1 else 0) <= |Ahead(s.lane.waiting, k)|
  {
    match step
    case Acquire(_, _, _) => assert Ahead(Next(s, step).lane.waiting, k) == Ahead(s.lane.waiting, k);
    case WakeUp(_) =>
    case TimeUp(t) =>
      if s.threads[t].Waiting? {
        RemovalShortens(s.lane.waiting, s.threads[t].ticket, k, s.lane.next);
      }
    case GiveBack(_, best) => RemovalShortens(s.lane.waiting, best, k, s.lane.next);
  }

  /** Tickets leave the list only by being served or by giving up. */
  lemma StepAccountsForTicket(s: System, step: Step, k: Ticket)
    requires Inv(s) && Enabled(s, step)
    requires k in s.lane.waiting || k in s.served || k in s.abandoned
    ensures var n := Next(s, step); k in n.lane.waiting || k in n.served || k in n.abandoned
  {
    match step
    case TimeUp(t) =>
      if s.threads[t].Waiting? {
        WithoutKeepsOrder(s.lane.waiting, s.threads[t].ticket, s.lane.next);
      }
    case GiveBack(t, best) =>
      if s.lane.waiting != [] {
        WithoutKeepsOrder(s.lane.waiting, best, s.lane.next);
      }
    case _ =>
  }

  lemma {:induction false} RunAccountsForTicket(s: System, steps: seq<Step>, k: Ticket)
    requires Inv(s) && IsRun(s, steps)
    requires k in s.lane.waiting || k in s.served || k in s.abandoned
    ensures var n := After(s, steps); k in n.lane.waiting || k in n.served || k in n.abandoned
    decreases |steps|
  {
    if steps != [] {
      StepAccountsForTicket(s, steps[0], k);
      KeepsSlotsCounted(s, steps[0]);
      KeepsTicketsMatch(s, steps[0]);
      KeepsNoneOvertaken(s, steps[0]);
      RunAccountsForTicket(Next(s, steps[0]), steps[1..], k);
    }
  }

  /**
   * No starvation within a rank: in a run where no higher rank arrives, once more slots have been given
   * back than tickets were ahead of k, k has been served or has given up.
   */
  lemma {:induction false} ServedInTurn(s: System, steps: seq<Step>, k: Ticket)
    requires Inv(s) && IsRun(s, steps) && k in s.lane.waiting
    requires forall i :: 0 <= i < |steps| && steps[i].Acquire? ==> steps[i].rank <= k.rank
    requires GiveBacks(steps) > |Ahead(s.lane.waiting, k)|
    ensures k in After(s, steps).served || k in After(s, steps).abandoned
    decreases |steps|
  {
    var n := Next(s, steps[0]);
    StepShortensQueue(s, steps[0], k);
    StepAccountsForTicket(s, steps[0], k);
    KeepsSlotsCounted(s, steps[0]);
    KeepsTicketsMatch(s, steps[0]);
    KeepsNoneOvertaken(s, steps[0]);
    if k in n.lane.waiting {
      ServedInTurn(n, steps[1..], k);
    } else {
      RunAccountsForTicket(n, steps[1..], k);
      StaysOut(n, steps[1..], k);
    }
  }

  /** A ticket that left the list never returns: numbers are not reused. */
  lemma {:induction false} StaysOut(s: System, steps: seq<Step>, k: Ticket)
    requires Inv(s) && IsRun(s, steps) && k !in s.lane.waiting && k.num < s.lane.next
    ensures k !in After(s, steps).lane.waiting
    decreases |steps|
  {
    if steps != [] {
      KeepsSlotsCounted(s, steps[0]);
      KeepsTicketsMatch(s, steps[0]);
      KeepsNoneOvertaken(s, steps[0]);
      StaysOut(Next(s, steps[0]), steps[1..], k);
    }
  }
}
