/** Why the bounds need what they assume: when queues are opened and waiters give up, a tenant that could
    run at every admission is passed over any number of times. One slot, and the tenants `t`, `b`, `c`.
    With queues t, b, c and b served last, c is admitted; b's waiter gives up and b queues again, now
    behind c; and the same with b and c exchanged. */
module EndlessBypass {
  import opened Options
  import opened Admission
  import opened Starvation

  const ONE := Limits(1, 1, 10, 10, 1000, 1000)
  const T: Tenant := "t"

  function W(ticket: Ticket, t: Tenant): Waiter {
    Waiter(ticket, t, 0, false)
  }

  function Asks(t: Tenant): Event {
    Acquires(Request(t, t, 0, false, false, Quiet))
  }

  /** One holder, of the tenant served last, and these queues. */
  predicate Busy(s: State, rows: seq<Row>, queued: nat, last: Tenant, holder: Ticket) {
    && s.rows == rows && s.last == Some(last) && s.active == 1 && s.grants == map[holder := Grant(last, last, false)]
    && s.keys == map[last := Use(1, false)] && s.tenants == map[last := 1]
    && s.queued == queued && s.queuedBytes == 0 && !s.closed
  }

  function Lines(t: Ticket, b: Tenant, x: Ticket, c: Tenant, y: Ticket, z: Ticket): seq<Row> {
    [Row(T, [W(t, T)]), Row(b, [W(x, b)]), Row(c, [W(y, c), W(z, c)])]
  }

  /** `b` was served last and has one waiter left; `c` queues behind it with two. */
  predicate Turn(s: State, b: Tenant, c: Tenant, h: Ticket, t: Ticket, x: Ticket, y: Ticket, z: Ticket) {
    && Busy(s, Lines(t, b, x, c, y, z), 4, b, h) && b != T && c != T && b != c
    && t < x <= s.offered && t < y <= s.offered && t < z <= s.offered
  }

  // ── While the slot is taken ────────────────────────────────────────────────

  lemma {:induction false} NobodyPicked(s: State, l: Limits, offset: nat)
    requires s.active >= l.capacity && offset <= |s.rows|
    ensures PickFrom(s, l, offset).None?
    decreases |s.rows| - offset
  {
    if offset < |s.rows| { NobodyPicked(s, l, offset + 1); }
  }

  lemma TakenStays(s: State)
    requires s.active == 1
    ensures Drain(s, ONE) == s && DrainTrace(s, ONE) == [s] && PickFrom(s, ONE, 0).None?
  {
    NobodyPicked(s, ONE, 0);
  }

  lemma JoinsFull(o: State, r: Request)
    requires o.active == 1 && !o.closed && r.callback == Quiet
    ensures var q := Enqueue(o, r.tenant, Waiter(o.offered, r.key, r.bytes, r.shared));
            Join(o, ONE, r) == q && JoinTrace(o, ONE, r) == [o, q] && q.active == 1
  {
    var q := Enqueue(o, r.tenant, Waiter(o.offered, r.key, r.bytes, r.shared));
    TakenStays(q);
    hide Drain, DrainTrace, PickFrom;
  }

  /** The request queues up. */
  lemma QueuesUp(s: State, t: Tenant)
    requires s.active == 1 && !s.closed && s.queued < 10 && s.queuedBytes == 0
    requires |Waiting(s, t)| < 10 && SumBytes(Waiting(s, t)) == 0
    ensures var o := s.(offered := s.offered + 1);
            var q := Enqueue(o, t, W(o.offered, t));
            Next(s, ONE, Asks(t)) == q && NextTrace(s, ONE, Asks(t)) == [s, o, q] && q.active == 1
  {
    var o := s.(offered := s.offered + 1);
    var q := Enqueue(o, t, W(o.offered, t));
    TakenStays(o);
    JoinsFull(o, Asks(t).request);
    assert Waiting(o, t) == Waiting(s, t);
    hide Drain, DrainTrace, PickFrom, Enqueue, Waiting, Join, JoinTrace, SumBytes;
    assert [o, q][1..] == [q];
  }

  // ── What is overlooked ─────────────────────────────────────────────────────

  /** The tenant waits here, and if the scan picks anybody, the tenant could run and is not the one. */
  ghost predicate Overlooked(s: State) {
    && HasQueue(s, T)
    && (PickFrom(s, ONE, 0).Some? ==> CouldRun(s, ONE, T) && PickFrom(s, ONE, 0).value.0 != RowOf(s.rows, T))
  }

  ghost predicate AllOverlooked(states: seq<State>) {
    forall k :: 0 <= k < |states| ==> Overlooked(states[k])
  }

  lemma TakenOverlooks(s: State)
    requires s.active == 1 && s.rows != [] && s.rows[0].tenant == T
    ensures Overlooked(s)
  {
    TakenStays(s);
  }

  // ── One round ──────────────────────────────────────────────────────────────

  function Afterwards(s: State, c: Tenant, y: Ticket, rows: seq<Row>): State {
    s.(rows := rows, last := Some(c), active := 1, admitted := s.admitted + 1, queued := s.queued - 1,
       grants := map[y := Grant(c, c, false)], keys := map[c := Use(1, false)], tenants := map[c := 1])
  }

  lemma Freed(s: State, b: Tenant, c: Tenant, h: Ticket, t: Ticket, x: Ticket, y: Ticket, z: Ticket)
    requires Turn(s, b, c, h, t, x, y, z)
    ensures var r := Release(s, h);
            && r == s.(active := 0, completed := s.completed + 1, tenants := map[], keys := map[], grants := map[])
            && RowOf(r.rows, T) == 0 && Previous(r) == 1
  {
    var rows := Lines(t, b, x, c, y, z);
    assert rows[1..][0].tenant == b;
    assert map[b := 1] - {b} == map[] && map[b := Use(1, false)] - {b} == map[];
    assert map[h := Grant(b, b, false)] - {h} == map[];
  }

  lemma PicksThird(r: State, b: Tenant, c: Tenant, t: Ticket, x: Ticket, y: Ticket, z: Ticket)
    requires r.rows == Lines(t, b, x, c, y, z) && r.active == 0 && r.keys == map[] && r.tenants == map[]
    requires RowOf(r.rows, T) == 0 && Previous(r) == 1
    ensures PickFrom(r, ONE, 0) == Some((2, 0)) && Overlooked(r)
  {
    hide RowOf, Previous;
    assert Visited(r, 0) == 2;
    assert Runnable(r, ONE, 2, 0);
    assert Runnable(r, ONE, 0, 0);
  }

  lemma AdmitsThird(r: State, b: Tenant, c: Tenant, t: Ticket, x: Ticket, y: Ticket, z: Ticket)
    requires r.rows == Lines(t, b, x, c, y, z) && r.active == 0 && r.keys == map[] && r.tenants == map[]
             && r.grants == map[]
    requires r.queuedBytes == 0
    ensures var a := Admit(r, 2, 0);
            var rows := [Row(T, [W(t, T)]), Row(b, [W(x, b)]), Row(c, [W(z, c)])];
            a == Afterwards(r, c, y, rows)
  {
    var a := Admit(r, 2, 0);
    assert Splice(r.rows[2].waiters, 0) == [W(z, c)];
  }

  /** The holder lets go: `c` is admitted and `t`, which could run, is not. */
  lemma LetsGo(s: State, b: Tenant, c: Tenant, h: Ticket, t: Ticket, x: Ticket, y: Ticket, z: Ticket)
    requires Turn(s, b, c, h, t, x, y, z) && QueueOk(s, ONE)
    ensures var r, a := Release(s, h), Next(s, ONE, Releases(h));
            && NextTrace(s, ONE, Releases(h)) == [s, r, a] && AllOverlooked([s, r, a]) && Passes(r, ONE, a, T)
            && Busy(a, [Row(T, [W(t, T)]), Row(b, [W(x, b)]), Row(c, [W(z, c)])], 3, c, y) && a.offered == s.offered
  {
    var r := Release(s, h);
    Freed(s, b, c, h, t, x, y, z);
    SameQueue(s, r, ONE);
    PicksThird(r, b, c, t, x, y, z);
    AdmitsThird(r, b, c, t, x, y, z);
    var a := Admit(r, 2, 0);
    TakenStays(a);
    TakenOverlooks(s);
    TakenOverlooks(a);
    hide PickFrom, QueueOk, Release, Admit, CouldRun, HasQueue;
    assert DrainTrace(r, ONE) == [r] + [a];
  }

  lemma Removes(s: State, b: Tenant, c: Tenant, h: Ticket, t: Ticket, x: Ticket, z: Ticket)
    requires Busy(s, [Row(T, [W(t, T)]), Row(b, [W(x, b)]), Row(c, [W(z, c)])], 3, c, h) && t < x
    ensures Position(s.rows, x, 0) == Some((1, 0))
    ensures Busy(Remove(s, x), [Row(T, [W(t, T)]), Row(c, [W(z, c)])], 2, c, h) && Remove(s, x).offered == s.offered
  {
    assert IndexIn(s.rows[0].waiters, x, 0) == None;
    assert IndexIn(s.rows[1].waiters, x, 0) == Some(0);
    assert Position(s.rows, x, 1) == Some((1, 0));
    assert Splice(s.rows[1].waiters, 0) == [];
    assert Splice(s.rows, 1) == [Row(T, [W(t, T)]), Row(c, [W(z, c)])];
  }

  /** The waiter of `b` gives up. */
  lemma GivesUp(s: State, b: Tenant, c: Tenant, h: Ticket, t: Ticket, x: Ticket, z: Ticket)
    requires Busy(s, [Row(T, [W(t, T)]), Row(b, [W(x, b)]), Row(c, [W(z, c)])], 3, c, h) && t < x
    ensures var a := Next(s, ONE, AbortsWaiter(x));
            && NextTrace(s, ONE, AbortsWaiter(x)) == [s, a] && AllOverlooked([s, a]) && a.offered == s.offered
            && Busy(a, [Row(T, [W(t, T)]), Row(c, [W(z, c)])], 2, c, h)
  {
    Removes(s, b, c, h, t, x, z);
    var a := Remove(s, x).(cancelled := s.cancelled + 1);
    TakenStays(a);
    TakenOverlooks(s);
    TakenOverlooks(a);
    hide Remove, Position, Overlooked, DrainTrace, Drain;
  }

  lemma NoRow(rows: seq<Row>, t: Tenant)
    requires |rows| == 2 && rows[0].tenant != t && rows[1].tenant != t
    ensures RowOf(rows, t) == -1
  {
  }

  /** A request of `b` queues up, and one more. */
  lemma QueuesAgain(s: State, b: Tenant, c: Tenant, h: Ticket, t: Ticket, z: Ticket)
    requires Busy(s, [Row(T, [W(t, T)]), Row(c, [W(z, c)])], 2, c, h) && b != T && c != T && b != c
    ensures var a := Next(s, ONE, Asks(b));
            && a.offered == s.offered + 1 && AllOverlooked(NextTrace(s, ONE, Asks(b)))
               && Joined(NextTrace(s, ONE, Asks(b)), s, a)
            && Busy(a, [Row(T, [W(t, T)]), Row(c, [W(z, c)]), Row(b, [W(a.offered, b)])], 3, c, h)
  {
    NoRow(s.rows, b);
    QueuesUp(s, b);
    var o := s.(offered := s.offered + 1);
    var q := Enqueue(o, b, W(o.offered, b));
    TakenOverlooks(s);
    TakenOverlooks(o);
    TakenOverlooks(q);
    hide Next, NextTrace, Overlooked;
    assert AllOverlooked([s, o, q]);
  }

  lemma QueuesTwice(s: State, b: Tenant, c: Tenant, h: Ticket, t: Ticket, z: Ticket, y: Ticket)
    requires Busy(s, [Row(T, [W(t, T)]), Row(c, [W(z, c)]), Row(b, [W(y, b)])], 3, c, h) && b != T && c != T && b != c
    ensures var a := Next(s, ONE, Asks(b));
            && a.offered == s.offered + 1 && AllOverlooked(NextTrace(s, ONE, Asks(b)))
               && Joined(NextTrace(s, ONE, Asks(b)), s, a)
            && Busy(a, Lines(t, c, z, b, y, a.offered), 4, c, h)
  {
    assert s.rows[1..][1..][0].tenant == b;
    assert RowOf(s.rows, b) == 2;
    assert [W(y, b)] + [W(s.offered + 1, b)] == [W(y, b), W(s.offered + 1, b)];
    QueuesUp(s, b);
    var o := s.(offered := s.offered + 1);
    var q := Enqueue(o, b, W(o.offered, b));
    TakenOverlooks(s);
    TakenOverlooks(o);
    TakenOverlooks(q);
    hide Next, NextTrace, Overlooked, RowOf;
    assert AllOverlooked([s, o, q]);
  }

  // ── Round after round ──────────────────────────────────────────────────────

  predicate Joined(states: seq<State>, s: State, r: State) {
    states != [] && states[0] == s && states[|states| - 1] == r
  }

  lemma {:induction false} PassesAdd(a: seq<State>, b: seq<State>, l: Limits, t: Tenant)
    requires a != [] && b != [] && a[|a| - 1] == b[0]
    ensures PassCount(Glued(a, b), l, t) == PassCount(a, l, t) + PassCount(b, l, t)
    decreases |b|
  {
    hide Passes;
    if |b| > 1 {
      var n, c := |b| - 1, Glued(a, b);
      PassesAdd(a, b[..n], l, t);
      assert c[..|c| - 1] == Glued(a, b[..n]);
      assert c[|c| - 1] == b[n] && c[|c| - 2] == b[n - 1];
    } else {
      assert Glued(a, b) == a;
    }
  }

  /** A run that ends in `r`, in which the tenant is passed over at least `n` times and never served. */
  ghost predicate Passed(s: State, events: seq<Event>, n: nat, r: State) {
    && RunFrom(s, ONE, events) == r && Joined(RunTrace(s, ONE, events), s, r) && QueueOk(r, ONE)
    && AllOverlooked(RunTrace(s, ONE, events)) && PassCount(RunTrace(s, ONE, events), ONE, T) >= n
  }

  lemma OverlookedThroughout(a: seq<State>, b: seq<State>)
    requires b != [] && AllOverlooked(a) && AllOverlooked(b)
    ensures AllOverlooked(Glued(a, b))
  {
    hide Overlooked;
    var c := Glued(a, b);
    forall k | 0 <= k < |c| ensures Overlooked(c[k]) {
      if k >= |a| { assert c[k] == b[k - |a| + 1]; }
    }
  }

  lemma RunMore(s: State, events: seq<Event>, e: Event)
    ensures var r := RunFrom(s, ONE, events);
            && RunFrom(s, ONE, events + [e]) == Next(r, ONE, e)
            && RunTrace(s, ONE, events + [e]) == Glued(RunTrace(s, ONE, events), NextTrace(r, ONE, e))
  {
    var all := events + [e];
    assert all[..|all| - 1] == events && all[|all| - 1] == e;
    hide Next, NextTrace, Glued;
  }

  lemma Extend(s: State, events: seq<Event>, n: nat, r: State, e: Event, m: nat)
    requires Passed(s, events, n, r) && QueueOk(Next(r, ONE, e), ONE)
    requires Joined(NextTrace(r, ONE, e), r, Next(r, ONE, e)) && AllOverlooked(NextTrace(r, ONE, e))
    requires PassCount(NextTrace(r, ONE, e), ONE, T) >= m
    ensures Passed(s, events + [e], n + m, Next(r, ONE, e))
  {
    hide Next, NextTrace, AllOverlooked, QueueOk, RunFrom, RunTrace, PassCount;
    RunMore(s, events, e);
    var a, b := RunTrace(s, ONE, events), NextTrace(r, ONE, e);
    PassesAdd(a, b, ONE, T);
    OverlookedThroughout(a, b);
    assert Joined(Glued(a, b), s, Next(r, ONE, e));
  }

  /** An event of one kind or the other: nothing is opened, or nobody leaves. */
  lemma QueuesStayOk(s: State, e: Event)
    requires QueueOk(s, ONE) && !(Disturbs(false, s, ONE, e) && Disturbs(true, s, ONE, e))
    ensures QueueOk(Next(s, ONE, e), ONE)
  {
    var patient := Disturbs(false, s, ONE, e);
    hide Disturbs, QueueOk, Next;
    NextLeads(patient, s, ONE, e);
    hide Trace, Moves;
  }

  lemma NotBoth(s: State, e: Event)
    requires e.Releases? || e.AbortsWaiter? || (e.Acquires? && e.request.callback == Quiet)
    ensures !(Disturbs(false, s, ONE, e) && Disturbs(true, s, ONE, e))
  {
    hide ReachesQueue, Position, Drain;
  }

  lemma OneMore(s: State, events: seq<Event>, n: nat, r: State, e: Event, m: nat)
    requires Passed(s, events, n, r) && (e.Releases? || e.AbortsWaiter? || (e.Acquires? && e.request.callback == Quiet))
    requires Joined(NextTrace(r, ONE, e), r, Next(r, ONE, e)) && AllOverlooked(NextTrace(r, ONE, e))
    requires PassCount(NextTrace(r, ONE, e), ONE, T) >= m
    ensures Passed(s, events + [e], n + m, Next(r, ONE, e))
  {
    NotBoth(r, e);
    assert QueueOk(r, ONE);
    hide Next, NextTrace, Passed, AllOverlooked, QueueOk, Disturbs, PassCount, Joined;
    QueuesStayOk(r, e);
    Extend(s, events, n, r, e, m);
  }

  lemma PassInside(a: State, b: State, c: State)
    requires Passes(b, ONE, c, T)
    ensures PassCount([a, b, c], ONE, T) >= 1
  {
    hide Passes;
    assert [a, b, c][..2] == [a, b];
  }

  lemma FirstHalf(s: State, events: seq<Event>, n: nat, r: State, b: Tenant, c: Tenant, h: Ticket,
                  t: Ticket, x: Ticket, y: Ticket, z: Ticket) returns (more: seq<Event>, r': State)
    requires Passed(s, events, n, r) && Turn(r, b, c, h, t, x, y, z)
    ensures Passed(s, more, n + 1, r') && r'.offered == r.offered
    ensures Busy(r', [Row(T, [W(t, T)]), Row(c, [W(z, c)])], 2, c, y)
  {
    assert QueueOk(r, ONE);
    LetsGo(r, b, c, h, t, x, y, z);
    hide Next, NextTrace, Passed, AllOverlooked, QueueOk, PassCount, Busy, Release;
    var r1 := Next(r, ONE, Releases(h));
    PassInside(r, Release(r, h), r1);
    OneMore(s, events, n, r, Releases(h), 1);
    GivesUp(r1, b, c, y, t, x, z);
    r' := Next(r1, ONE, AbortsWaiter(x));
    more := events + [Releases(h)] + [AbortsWaiter(x)];
    OneMore(s, events + [Releases(h)], n + 1, r1, AbortsWaiter(x), 0);
  }

  /** From one turn to the next, with the parts of `b` and `c` exchanged. */
  lemma Round(s: State, events: seq<Event>, n: nat, r: State, b: Tenant, c: Tenant, h: Ticket,
              t: Ticket, x: Ticket, y: Ticket, z: Ticket) returns (more: seq<Event>, r': State, w: Ticket, v: Ticket)
    requires Passed(s, events, n, r) && Turn(r, b, c, h, t, x, y, z)
    ensures Passed(s, more, n + 1, r') && Turn(r', c, b, y, t, z, w, v)
  {
    hide Next, NextTrace, Passed, AllOverlooked, PassCount, Busy, Joined;
    var half, r2 := FirstHalf(s, events, n, r, b, c, h, t, x, y, z);
    QueuesAgain(r2, b, c, y, t, z);
    var r3 := Next(r2, ONE, Asks(b));
    OneMore(s, half, n + 1, r2, Asks(b), 0);
    QueuesTwice(r3, b, c, y, t, z, r3.offered);
    OneMore(s, half + [Asks(b)], n + 1, r3, Asks(b), 0);
    more, r', w, v := half + [Asks(b)] + [Asks(b)], Next(r3, ONE, Asks(b)), r3.offered, r3.offered + 1;
  }

  // ── Any number of rounds ───────────────────────────────────────────────────

  /** The first two requests of `b` hold the slot one after the other, and `t` queues meanwhile. */
  const OPENING: seq<Event> := [Asks("b"), Asks("b"), Asks(T), Releases(1), Asks("b"), Asks("c"), Asks("c")]

  const FIRST := State([], map["b" := Use(1, false)], map["b" := 1], map[1 := Grant("b", "b", false)],
                       1, 0, 0, false, None, 1, 1, 0, 0, 0)
  const SECOND := FIRST.(rows := [Row("b", [W(2, "b")])], queued := 1, offered := 2)
  const THIRD := FIRST.(rows := [Row("b", [W(2, "b")]), Row(T, [W(3, T)])], queued := 2, offered := 3)
  const FOURTH := FIRST.(rows := [Row(T, [W(3, T)])], grants := map[2 := Grant("b", "b", false)], queued := 1,
                         last := Some("b"), offered := 3, admitted := 2, completed := 1)
  const FIFTH := FOURTH.(rows := [Row(T, [W(3, T)]), Row("b", [W(4, "b")])], queued := 2, offered := 4)
  const SIXTH := FOURTH.(rows := [Row(T, [W(3, T)]), Row("b", [W(4, "b")]), Row("c", [W(5, "c")])], queued := 3,
      offered := 5)
  const START := FOURTH.(rows := Lines(3, "b", 4, "c", 5, 6), queued := 4, offered := 6)

  lemma StartTurn()
    ensures Turn(START, "b", "c", 2, 3, 4, 5, 6)
  {
  }

  lemma GetsTheSlot()
    ensures Next(EMPTY, ONE, Asks("b")) == FIRST
  {
    assert Drain(EMPTY.(offered := 1), ONE) == EMPTY.(offered := 1);
    hide Drain, Join, Full;
  }

  lemma QueuesSecond()
    ensures Next(FIRST, ONE, Asks("b")) == SECOND
  {
    assert RowOf(FIRST.rows, "b") == -1;
    QueuesUp(FIRST, "b");
    hide Next, NextTrace, RowOf;
  }

  lemma QueuesThird()
    ensures Next(SECOND, ONE, Asks(T)) == THIRD
  {
    assert SECOND.rows[1..] == [];
    assert RowOf(SECOND.rows, T) == -1;
    QueuesUp(SECOND, T);
    hide Next, NextTrace, RowOf;
  }

  lemma HandsOver()
    ensures Next(THIRD, ONE, Releases(1)) == FOURTH
  {
    var r := Release(THIRD, 1);
    assert r == THIRD.(active := 0, completed := 1, tenants := map[], keys := map[], grants := map[]);
    assert Visited(r, 0) == 0 && Runnable(r, ONE, 0, 0);
    assert PickFrom(r, ONE, 0) == Some((0, 0));
    assert Splice(r.rows[0].waiters, 0) == [] && Splice(r.rows, 0) == [Row(T, [W(3, T)])];
    TakenStays(FOURTH);
    hide PickFrom;
    assert Admit(r, 0, 0) == FOURTH;
  }

  lemma FillsUp()
    ensures Next(FOURTH, ONE, Asks("b")) == FIFTH && Next(FIFTH, ONE, Asks("c")) == SIXTH
            && Next(SIXTH, ONE, Asks("c")) == START
  {
    QueuesUp(FOURTH, "b");
    NoRow(FIFTH.rows, "c");
    QueuesUp(FIFTH, "c");
    assert SIXTH.rows[1..][1..][0].tenant == "c";
    assert RowOf(SIXTH.rows, "c") == 2;
    assert [W(5, "c")] + [W(6, "c")] == [W(5, "c"), W(6, "c")];
    QueuesUp(SIXTH, "c");
    hide RowOf;
  }

  lemma ThenRuns(events: seq<Event>, e: Event)
    ensures RunAll(ONE, events + [e]) == Next(RunAll(ONE, events), ONE, e)
  {
    assert (events + [e])[..|events|] == events;
  }

  lemma NothingRan()
    ensures RunAll(ONE, []) == EMPTY
  {
  }

  /** The rounds start in a state that the scheduler reaches. */
  lemma StartReached()
    ensures RunAll(ONE, OPENING) == START && QueueOk(START, ONE)
  {
    GetsTheSlot();
    QueuesSecond();
    QueuesThird();
    HandsOver();
    FillsUp();
    NothingRan();
    var es := OPENING;
    hide Next, RunAll, QueueOk;
    assert es[..1] == [] + [es[0]] && es[..2] == es[..1] + [es[1]] && es[..3] == es[..2] + [es[2]];
    assert es[..4] == es[..3] + [es[3]] && es[..5] == es[..4] + [es[4]] && es[..6] == es[..5] + [es[5]];
    assert es == es[..6] + [es[6]];
    ThenRuns([], es[0]);
    ThenRuns(es[..1], es[1]);
    ThenRuns(es[..2], es[2]);
    ThenRuns(es[..3], es[3]);
    ThenRuns(es[..4], es[4]);
    ThenRuns(es[..5], es[5]);
    ThenRuns(es[..6], es[6]);
    ReachableGood(ONE, es);
  }

  lemma {:induction false} Rounds(n: nat)
    returns (events: seq<Event>, r: State, b: Tenant, c: Tenant, h: Ticket, t: Ticket, x: Ticket, y: Ticket, z: Ticket)
    ensures Passed(START, events, n, r) && Turn(r, b, c, h, t, x, y, z)
  {
    StartReached();
    StartTurn();
    hide Turn, QueueOk, RunAll;
    if n == 0 {
      events, r, b, c, h, t, x, y, z := [], START, "b", "c", 2, 3, 4, 5, 6;
      TakenOverlooks(START);
    } else {
      hide Passed;
      var more, r0, b0, c0, h0, t0, x0, y0, z0 := Rounds(n - 1);
      var last, r1, w, v := Round(START, more, n - 1, r0, b0, c0, h0, t0, x0, y0, z0);
      events, r, b, c, h, t, x, y, z := last, r1, c0, b0, y0, t0, z0, w, v;
    }
  }

  /** Whatever the bound, there is a run in which the tenant waits throughout, could run whenever anybody
      was admitted, and is passed over more often. */
  lemma PassedOverWithoutBound(n: nat)
    ensures RunAll(ONE, OPENING) == START
    ensures exists events: seq<Event> ::
              && AllOverlooked(RunTrace(START, ONE, events))
              && PassCount(RunTrace(START, ONE, events), ONE, T) >= n
  {
    StartReached();
    var events, r, b, c, h, t, x, y, z := Rounds(n);
    hide AllOverlooked, PassCount;
  }
}
