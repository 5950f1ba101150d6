/** What becomes of each request to the scheduler: when it is let in at once, refused or queued, what a
    timeout, an abort, a release and a scan change, and which counter each of them moves. */
module Outcomes {
  import opened Options
  import opened Admission

  // ── The scan ───────────────────────────────────────────────────────────────

  /** The ticket stands in this row with what it asked for. */
  predicate StandsIn(rows: seq<Row>, t: Ticket, g: Grant) {
    exists i, j :: 0 <= i < |rows| && 0 <= j < |rows[i].waiters| && Stands(rows, i, j, t, g)
  }

  predicate Stands(rows: seq<Row>, i: nat, j: nat, t: Ticket, g: Grant)
    requires i < |rows| && j < |rows[i].waiters|
  {
    var w := rows[i].waiters[j];
    w.ticket == t && g == Grant(rows[i].tenant, w.key, w.shared)
  }

  /** Some waiters were let in, each as what it had asked for; nobody else left or lost anything, and only the count
      of those let in has moved. */
  ghost predicate LetsIn(a: State, b: State) {
    && (forall t :: t in a.grants ==> t in b.grants && b.grants[t] == a.grants[t])
    && (forall t :: t in b.grants && t !in a.grants ==> StandsIn(a.rows, t, b.grants[t]))
    && (forall t :: Queued(a.rows, t) == Queued(b.rows, t) + if t in b.grants && t !in a.grants then 1 else 0)
    && b.admitted - a.admitted == |b.grants| - |a.grants| == TotalLen(a.rows) - TotalLen(b.rows)
    && b.refused == a.refused && b.cancelled == a.cancelled && b.completed == a.completed && b.offered == a.offered
    && b.closed == a.closed
  }

  lemma LetsNobodyIn(a: State)
    ensures LetsIn(a, a)
  {
  }

  lemma {:induction false} FoundStanding(rows: seq<Row>, t: Ticket, i: nat, j: nat)
    requires i < |rows| && j < |rows[i].waiters| && rows[i].waiters[j].ticket == t
    ensures Queued(rows, t) > 0
    decreases i
  {
    if i == 0 { RowFound(rows[0].waiters, t, j); } else { FoundStanding(rows[1..], t, i - 1, j); }
  }

  lemma {:induction false} RowFound(ws: seq<Waiter>, t: Ticket, j: nat)
    requires j < |ws| && ws[j].ticket == t
    ensures RowCount(ws, t) > 0
  {
    if j > 0 { RowFound(ws[1..], t, j - 1); }
  }

  lemma StillStood(rows: seq<Row>, i: nat, j: nat, t: Ticket, g: Grant)
    requires i < |rows| && j < |rows[i].waiters|
    requires var ws := Splice(rows[i].waiters, j);
             StandsIn(if ws == [] then Splice(rows, i) else rows[i := rows[i].(waiters := ws)], t, g)
    ensures StandsIn(rows, t, g)
  {
    var ws := Splice(rows[i].waiters, j);
    var r := if ws == [] then Splice(rows, i) else rows[i := rows[i].(waiters := ws)];
    var x, y :| 0 <= x < |r| && 0 <= y < |r[x].waiters| && Stands(r, x, y, t, g);
    if ws == [] {
      assert Stands(rows, if x < i then x else x + 1, y, t, g);
    } else if x != i {
      assert Stands(rows, x, y, t, g);
    } else {
      assert Stands(rows, i, if y < j then y else y + 1, t, g);
    }
  }

  lemma AdmitLetsIn(s: State, l: Limits, n: nat, i: nat, j: nat)
    requires Inv(s, l, n) && i < |s.rows| && j < |s.rows[i].waiters| && n <= s.offered
    ensures LetsIn(s, Admit(s, i, j))
  {
    var w := s.rows[i].waiters[j];
    var a := Admit(s, i, j);
    FoundStanding(s.rows, w.ticket, i, j);
    assert TicketOk(s, n, w.ticket);
    SpliceTotals(s.rows, i, j);
    forall t ensures Queued(s.rows, t) == Queued(a.rows, t) + if t in a.grants && t !in s.grants then 1 else 0 {
      SpliceTickets(s.rows, i, j, t);
    }
    assert Stands(s.rows, i, j, w.ticket, a.grants[w.ticket]);
    hide Queued, TotalLen, UseOk, QueueOk, TicketsOk;
    assert |a.grants| == |s.grants| + 1;
  }

  lemma LetsInTwice(s: State, i: nat, j: nat, b: State)
    requires i < |s.rows| && j < |s.rows[i].waiters| && LetsIn(s, Admit(s, i, j)) && LetsIn(Admit(s, i, j), b)
    ensures LetsIn(s, b)
  {
    var a := Admit(s, i, j);
    forall t | t in b.grants && t !in s.grants ensures StandsIn(s.rows, t, b.grants[t]) {
      if t !in a.grants { StillStood(s.rows, i, j, t, b.grants[t]); }
    }
    hide Queued, TotalLen, StandsIn;
  }

  lemma {:induction false} DrainLetsIn(s: State, l: Limits, n: nat)
    requires Inv(s, l, n) && n <= s.offered
    ensures LetsIn(s, Drain(s, l))
    decreases TotalLen(s.rows)
  {
    hide Inv, Runnable, LetsIn;
    if !s.closed && s.queued > 0 && PickFrom(s, l, 0).Some? {
      var p := PickFrom(s, l, 0).value;
      AdmitLetsIn(s, l, n, p.0, p.1);
      AdmitInv(s, l, n, p.0, p.1);
      SpliceTotals(s.rows, p.0, p.1);
      DrainLetsIn(Admit(s, p.0, p.1), l, n);
      LetsInTwice(s, p.0, p.1, Drain(Admit(s, p.0, p.1), l));
    } else {
      LetsNobodyIn(s);
    }
  }

  lemma SettledDrains(s: State, l: Limits)
    requires s.closed || Settled(s, l)
    ensures Drain(s, l) == s
  {
    hide Runnable;
    assert !s.closed ==> PickFrom(s, l, 0).None?;
  }

  /** Requests of one tenant for one key are served in the order they came, shared or not: the scan never takes a
      waiter behind another one for the same key. */
  lemma FirstOfItsKey(s: State, l: Limits, k: nat)
    requires PickFrom(s, l, 0).Some? && k < PickFrom(s, l, 0).value.1
    ensures var p := PickFrom(s, l, 0).value; s.rows[p.0].waiters[k].key != s.rows[p.0].waiters[p.1].key
  {
    var p := PickFrom(s, l, 0).value;
    PickedIsFirst(s, l, 0);
    var ws, j := s.rows[p.0].waiters, p.1;
    hide PickFrom;
    if ws[k].key == ws[j].key { Sooner(s, l, p.0, k, j); }
  }

  lemma {:induction false} PickedIsFirst(s: State, l: Limits, offset: nat)
    requires offset <= |s.rows| && PickFrom(s, l, offset).Some?
    ensures var p := PickFrom(s, l, offset).value; forall j :: 0 <= j < p.1 ==> !Runnable(s, l, p.0, j)
    decreases |s.rows| - offset
  {
    hide Runnable;
    if FirstRunnable(s, l, Visited(s, offset), 0).None? { PickedIsFirst(s, l, offset + 1); }
  }

  /** The first waiter for a key is runnable if a later one for it is. */
  lemma {:induction false} Sooner(s: State, l: Limits, i: nat, k: nat, j: nat)
    requires i < |s.rows| && k < j < |s.rows[i].waiters| && s.rows[i].waiters[k].key == s.rows[i].waiters[j].key
    requires Runnable(s, l, i, j)
    ensures exists m :: 0 <= m < j && Runnable(s, l, i, m)
    decreases k
  {
    var ws := s.rows[i].waiters;
    if m :| 0 <= m < k && ws[m].key == ws[k].key {
      Sooner(s, l, i, m, j);
    } else {
      assert ws[k].shared;
      assert Runnable(s, l, i, k);
    }
  }

  // ── Requests ───────────────────────────────────────────────────────────────

  /** There is a place for the request now, and no request of its tenant for its key waits. */
  predicate FitsNow(s: State, l: Limits, r: Request) {
    && (forall i, j :: 0 <= i < |s.rows| && 0 <= j < |s.rows[i].waiters| ==>
          s.rows[i].tenant == r.tenant ==> s.rows[i].waiters[j].key != r.key)
    && (r.tenant in s.tenants ==> s.tenants[r.tenant] < l.perTenant) && 0 < l.perTenant
    && (r.key in s.keys ==> r.shared && s.keys[r.key].shared) && s.active < l.capacity
  }

  /** Queueing it would exceed one of the four caps. */
  predicate OverCaps(s: State, l: Limits, r: Request) {
    var own := Waiting(s, r.tenant);
    || s.queued + 1 > l.maxQueued || |own| + 1 > l.maxQueuedPerTenant
    || s.queuedBytes + r.bytes > l.maxBytes || SumBytes(own) + r.bytes > l.maxBytesPerTenant
  }

  /** Whose requests wait, in their order. */
  lemma WaitingIs(s: State, l: Limits, t: Tenant)
    requires QueueOk(s, l)
    ensures Waiting(s, t) == [] <==> forall i :: 0 <= i < |s.rows| ==> s.rows[i].tenant != t
    ensures forall i :: 0 <= i < |s.rows| && s.rows[i].tenant == t ==> Waiting(s, t) == s.rows[i].waiters
  {
    var at := RowOf(s.rows, t);
    if at >= 0 { assert RowOk(s.rows[at], l); }
    hide TotalLen, TotalBytes;
  }

  lemma FitsIs(s: State, l: Limits, r: Request)
    requires QueueOk(s, l)
    ensures FitsNow(s, l, r) <==>
            !KeyQueued(Waiting(s, r.tenant), r.key) && Admissible(s, l, r.tenant, r.key, r.shared)
  {
    WaitingIs(s, l, r.tenant);
    hide Waiting, QueueOk;
  }

  lemma OverIs(s: State, l: Limits, r: Request)
    ensures OverCaps(s, l, r) <==> Full(s, l, r.tenant, r.bytes)
  {
  }

  lemma GoodParts(s: State, l: Limits)
    requires Good(s, l)
    ensures Inv(s, l, s.offered) && QueueOk(s, l) && (s.closed || Settled(s, l))
  {
  }

  /** The count of requests goes up, and nobody who waits could run. */
  lemma Counted(s: State, l: Limits, r: Request)
    requires QueueOk(s, l) && Settled(s, l)
    ensures var o := s.(offered := s.offered + 1);
            && QueueOk(o, l) && Settled(o, l) && Drain(o, l) == o
            && FitsNow(o, l, r) == FitsNow(s, l, r) && OverCaps(o, l, r) == OverCaps(s, l, r)
  {
    var o := s.(offered := s.offered + 1);
    SettledRecount(s, o, l);
    SameQueue(s, o, l);
    hide Drain, QueueOk, Settled;
    SettledDrains(o, l);
  }

  /** What `acquire` comes to when nobody who waits could run. */
  lemma AcquireIs(s: State, l: Limits, r: Request)
    requires QueueOk(s, l) && Settled(s, l) && !s.closed && !r.aborted
    ensures var o := s.(offered := s.offered + 1);
            Acquire(s, l, r) ==
            if FitsNow(s, l, r) then Reserve(o, o.offered, r.tenant, r.key, r.shared)
            else if OverCaps(s, l, r) then o.(refused := o.refused + 1)
            else Join(o, l, r)
  {
    hide QueueOk, Settled, Drain, Join, Full, KeyQueued, Admissible, FitsNow, OverCaps, Reserve, Waiting;
    var o := s.(offered := s.offered + 1);
    Counted(s, l, r);
    FitsIs(o, l, r);
    OverIs(o, l, r);
  }

  /** A request is turned away when the scheduler is closed or its caller has given up; else it is let in at once if
      and only if there is a place and none of its tenant's requests for that key waits; else it is refused if
      and only if a cap would be exceeded; and only then is it queued. Each way moves its own counter. */
  lemma TurnedAwayExactly(s: State, l: Limits, r: Request)
    requires Good(s, l)
    ensures var n, t := Next(s, l, Acquires(r)), s.offered + 1;
            && (s.closed || r.aborted ==> n == s.(offered := t, cancelled := s.cancelled + 1))
            && (!s.closed && !r.aborted && FitsNow(s, l, r) ==>
                  && n.grants == s.grants[t := Grant(r.tenant, r.key, r.shared)] && n.admitted == s.admitted + 1
                  && n.rows == s.rows && n.refused == s.refused && n.cancelled == s.cancelled
                  && n.completed == s.completed && n.offered == t)
            && (!s.closed && !r.aborted && !FitsNow(s, l, r) && OverCaps(s, l, r) ==>
                  n == s.(offered := t, refused := s.refused + 1))
  {
    hide QueueOk, Settled, FitsNow, OverCaps, Join, Drain, Inv;
    if s.closed || r.aborted {
      AcquireGoesAway(s, l, r);
    } else {
      GoodParts(s, l);
      hide Acquire;
      AcquireIs(s, l, r);
    }
  }

  lemma AcquireGoesAway(s: State, l: Limits, r: Request)
    requires s.closed || r.aborted
    ensures Acquire(s, l, r) == s.(offered := s.offered + 1, cancelled := s.cancelled + 1)
  {
    hide Drain, Join, Full, Admissible;
  }

  lemma {:induction false} EarlierBlocks(ws: seq<Waiter>, key: KeyName, k: nat)
    requires k < |ws| && ws[k].key == key
    ensures exists m :: 0 <= m < |ws| && ws[m].key == key && forall i :: 0 <= i < m ==> ws[i].key != key
    decreases k
  {
    if m :| 0 <= m < k && ws[m].key == key { EarlierBlocks(ws, key, m); }
  }

  /** A request that does not fit is not runnable behind those that wait either. */
  lemma JoinedSettled(s: State, l: Limits, r: Request, w: Waiter)
    requires QueueOk(s, l) && Settled(s, l) && !FitsNow(s, l, r) && w.key == r.key && w.shared == r.shared
    ensures Settled(Enqueue(s, r.tenant, w), l)
  {
    var q, at := Enqueue(s, r.tenant, w), RowOf(s.rows, r.tenant);
    FitsIs(s, l, r);
    hide FitsNow, QueueOk;
    forall i, j | 0 <= i < |q.rows| && 0 <= j < |q.rows[i].waiters| ensures !Runnable(q, l, i, j) {
      if at >= 0 && i == at && j == |s.rows[at].waiters| {
        LastNotRunnable(s, l, r, w);
      } else if i < |s.rows| {
        assert !Runnable(s, l, i, j);
        SameWaiter(s, q, l, i, j);
      } else {
        assert Waiting(s, r.tenant) == [] && q.rows[i].waiters == [w] && !BehindWriter([w], 0);
      }
    }
  }

  lemma SameWaiter(s: State, q: State, l: Limits, i: nat, j: nat)
    requires i < |s.rows| && i < |q.rows| && j < |s.rows[i].waiters|
             && q == s.(rows := q.rows, queued := q.queued, queuedBytes := q.queuedBytes)
    requires q.rows[i].tenant == s.rows[i].tenant && s.rows[i].waiters <= q.rows[i].waiters
    ensures Runnable(q, l, i, j) == Runnable(s, l, i, j)
  {
    assert forall k :: 0 <= k <= j ==> q.rows[i].waiters[k] == s.rows[i].waiters[k];
  }

  lemma LastNotRunnable(s: State, l: Limits, r: Request, w: Waiter)
    requires Settled(s, l) && RowOf(s.rows, r.tenant) >= 0 && w.key == r.key && w.shared == r.shared
    requires KeyQueued(Waiting(s, r.tenant), r.key) || !Admissible(s, l, r.tenant, r.key, r.shared)
    ensures var at := RowOf(s.rows, r.tenant);
            !Runnable(Enqueue(s, r.tenant, w), l, at, |s.rows[at].waiters|)
  {
    var at, q := RowOf(s.rows, r.tenant), Enqueue(s, r.tenant, w);
    var ws := s.rows[at].waiters;
    var last := |ws|;
    assert q.rows[at].waiters == ws + [w];
    if Runnable(q, l, at, last) {
      var k :| 0 <= k < |ws| && ws[k].key == r.key;
      EarlierBlocks(ws, r.key, k);
      var m :| 0 <= m < |ws| && ws[m].key == r.key && forall i :: 0 <= i < m ==> ws[i].key != r.key;
      assert q.rows[at].waiters[m] == ws[m];
      assert Runnable(s, l, at, m);
    }
  }

  /** A request that neither fits nor exceeds a cap joins the end of its tenant's queue, a tenant without one the end of
      the rotation, and nothing else changes. */
  lemma QueuedExactly(s: State, l: Limits, r: Request)
    requires Good(s, l) && !s.closed && !r.aborted && !FitsNow(s, l, r) && !OverCaps(s, l, r) && r.callback == Quiet
    ensures var n, t := Next(s, l, Acquires(r)), s.offered + 1;
            && Waiting(n, r.tenant) == Waiting(s, r.tenant) + [Waiter(t, r.key, r.bytes, r.shared)]
            && (forall u :: u != r.tenant ==> Waiting(n, u) == Waiting(s, u))
            && (if Waiting(s, r.tenant) == [] then |n.rows| == |s.rows| + 1 && n.rows[|s.rows|].tenant == r.tenant
                else |n.rows| == |s.rows|)
            && (forall i :: 0 <= i < |s.rows| ==> n.rows[i].tenant == s.rows[i].tenant)
            && n == s.(rows := n.rows, offered := t, queued := s.queued + 1, queuedBytes := s.queuedBytes + r.bytes)
  {
    hide Inv, QueueOk, Settled, FitsNow, OverCaps, Drain, Acquire, Waiting, RowOf;
    var o := s.(offered := s.offered + 1);
    var w := Waiter(o.offered, r.key, r.bytes, r.shared);
    GoodParts(s, l);
    Counted(s, l, r);
    AcquireIs(s, l, r);
    JoinedSettled(o, l, r, w);
    SettledDrains(Enqueue(o, r.tenant, w), l);
    assert Acquire(s, l, r) == Enqueue(o, r.tenant, w);
    Enqueued(s, l, o, r.tenant, w);
  }

  lemma Enqueued(s: State, l: Limits, o: State, t: Tenant, w: Waiter)
    requires QueueOk(s, l) && o.rows == s.rows
    ensures var n := Enqueue(o, t, w);
            && Waiting(n, t) == Waiting(s, t) + [w] && (forall u :: u != t ==> Waiting(n, u) == Waiting(s, u))
            && (if Waiting(s, t) == [] then |n.rows| == |s.rows| + 1 && n.rows[|s.rows|].tenant == t
                else |n.rows| == |s.rows|)
            && (forall i :: 0 <= i < |s.rows| ==> n.rows[i].tenant == s.rows[i].tenant)
  {
    var n, at := Enqueue(o, t, w), RowOf(s.rows, t);
    WaitingIs(s, l, t);
    forall u ensures Waiting(n, u) == Waiting(s, u) + if u == t then [w] else [] {
      if at < 0 { NewRowAt(s.rows, Row(t, [w]), u); } else { SameRowAt(s.rows, n.rows, u); }
    }
    forall u | u != t ensures Waiting(n, u) == Waiting(s, u) {
      assert Waiting(s, u) + [] == Waiting(s, u);
    }
  }

  lemma {:induction false} NewRowAt(rows: seq<Row>, row: Row, u: Tenant)
    requires RowOf(rows, row.tenant) < 0
    ensures RowOf(rows + [row], u) == if u == row.tenant then |rows| else RowOf(rows, u)
  {
    if rows != [] {
      assert (rows + [row])[1..] == rows[1..] + [row];
      NewRowAt(rows[1..], row, u);
    }
  }

  lemma {:induction false} SameRowAt(a: seq<Row>, b: seq<Row>, u: Tenant)
    requires |a| == |b| && forall i :: 0 <= i < |a| ==> b[i].tenant == a[i].tenant
    ensures RowOf(b, u) == RowOf(a, u)
  {
    if a != [] { SameRowAt(a[1..], b[1..], u); }
  }

  lemma {:induction false} OnlyLast(ws: seq<Waiter>, w: Waiter, from: nat)
    requires from <= |ws| && forall j :: 0 <= j < |ws| ==> ws[j].ticket != w.ticket
    ensures IndexIn(ws + [w], w.ticket, from) == Some(|ws|)
    decreases |ws| - from
  {
    if from < |ws| { OnlyLast(ws, w, from + 1); }
  }

  lemma {:induction false} NotIn(ws: seq<Waiter>, t: Ticket, from: nat)
    requires from <= |ws| && forall j :: 0 <= j < |ws| ==> ws[j].ticket != t
    ensures IndexIn(ws, t, from) == None
    decreases |ws| - from
  {
    if from < |ws| { NotIn(ws, t, from + 1); }
  }

  lemma {:induction false} OnlyAt(rows: seq<Row>, t: Ticket, i: nat, j: nat, from: nat)
    requires from <= i < |rows| && IndexIn(rows[i].waiters, t, 0) == Some(j)
    requires forall k, m :: 0 <= k < i && 0 <= m < |rows[k].waiters| ==> rows[k].waiters[m].ticket != t
    ensures Position(rows, t, from) == Some((i, j))
    decreases i - from
  {
    if from < i {
      NotIn(rows[from].waiters, t, 0);
      OnlyAt(rows, t, i, j, from + 1);
    }
  }

  lemma NowhereQueued(rows: seq<Row>, t: Ticket)
    requires Queued(rows, t) == 0
    ensures forall k, m :: 0 <= k < |rows| && 0 <= m < |rows[k].waiters| ==> rows[k].waiters[m].ticket != t
  {
    forall k, m | 0 <= k < |rows| && 0 <= m < |rows[k].waiters| ensures rows[k].waiters[m].ticket != t {
      if rows[k].waiters[m].ticket == t { FoundStanding(rows, t, k, m); }
    }
  }

  lemma FoundInOwnRow(rows: seq<Row>, t: Tenant, w: Waiter)
    requires Queued(rows, w.ticket) == 0
    ensures Position(rows + [Row(t, [w])], w.ticket, 0) == Some((|rows|, 0))
  {
    NowhereQueued(rows, w.ticket);
    hide Queued, Position;
    assert [] + [w] == [w];
    OnlyLast([], w, 0);
    hide IndexIn;
    var more := rows + [Row(t, [w])];
    assert forall k :: 0 <= k < |rows| ==> more[k] == rows[k];
    OnlyAt(more, w.ticket, |rows|, 0, 0);
  }

  lemma LeavesOwnRow(o: State, t: Tenant, w: Waiter)
    requires Queued(o.rows, w.ticket) == 0 && RowOf(o.rows, t) < 0
    ensures Remove(Enqueue(o, t, w), w.ticket) == o
  {
    hide Queued, RowOf, Position;
    FoundInOwnRow(o.rows, t, w);
    var q := Enqueue(o, t, w);
    assert q.rows[|o.rows|] == Row(t, [w]);
    assert Splice([w], 0) == [] && Splice(q.rows, |o.rows|) == o.rows;
  }

  lemma LeavesRow(o: State, t: Tenant, w: Waiter)
    requires Queued(o.rows, w.ticket) == 0 && RowOf(o.rows, t) >= 0 && o.rows[RowOf(o.rows, t)].waiters != []
    ensures Remove(Enqueue(o, t, w), w.ticket) == o
  {
    NowhereQueued(o.rows, w.ticket);
    var q, at := Enqueue(o, t, w), RowOf(o.rows, t);
    var ws := o.rows[at].waiters;
    OnlyLast(ws, w, 0);
    assert forall k :: 0 <= k < at ==> q.rows[k] == o.rows[k];
    OnlyAt(q.rows, w.ticket, at, |ws|, 0);
    hide Queued, RowOf, Position, IndexIn;
    assert Splice(ws + [w], |ws|) == ws;
    RemoveLast(o, q, at, w);
  }

  /** Taking a newly queued waiter out again leaves the queues as they were. */
  lemma JoinsAndLeaves(o: State, l: Limits, t: Tenant, w: Waiter)
    requires Queued(o.rows, w.ticket) == 0 && QueueOk(o, l)
    ensures Remove(Enqueue(o, t, w), w.ticket) == o && Enqueue(o, t, w).cancelled == o.cancelled
  {
    var at := RowOf(o.rows, t);
    if at < 0 {
      LeavesOwnRow(o, t, w);
    } else {
      assert RowOk(o.rows[at], l);
      LeavesRow(o, t, w);
    }
    hide Remove, QueueOk, RowOf, Queued;
  }

  lemma RemoveLast(o: State, q: State, at: nat, w: Waiter)
    requires at < |o.rows| && q == o.(rows := q.rows, queued := o.queued + 1, queuedBytes := o.queuedBytes + w.bytes)
    requires q.rows == o.rows[at := o.rows[at].(waiters := o.rows[at].waiters + [w])]
    requires Splice(o.rows[at].waiters + [w], |o.rows[at].waiters|) == o.rows[at].waiters && o.rows[at].waiters != []
    ensures RemoveAt(q, at, |o.rows[at].waiters|) == o
  {
    assert q.rows[at := o.rows[at]] == o.rows;
  }

  /** A request whose callback takes it away again while it is queued leaves only its count: once when the callback
      throws or aborts, twice when it does both. */
  lemma WithdrawnExactly(s: State, l: Limits, r: Request)
    requires Good(s, l) && !s.closed && !r.aborted && !FitsNow(s, l, r) && !OverCaps(s, l, r) && r.callback != Quiet
    ensures Next(s, l, Acquires(r)) ==
            s.(offered := s.offered + 1, cancelled := s.cancelled + if r.callback == AbortsAndThrows then 2 else 1)
  {
    hide Inv, QueueOk, Settled, FitsNow, OverCaps, Drain, Acquire, Waiting, RowOf, Enqueue, Remove, Queued;
    var o := s.(offered := s.offered + 1);
    GoodParts(s, l);
    Counted(s, l, r);
    AcquireIs(s, l, r);
    NeverQueued(s, l);
    JoinsAndLeaves(o, l, r.tenant, Waiter(o.offered, r.key, r.bytes, r.shared));
    var q := Enqueue(o, r.tenant, Waiter(o.offered, r.key, r.bytes, r.shared));
    var c := o.(cancelled := o.cancelled + 1);
    SettledRecount(o, c, l);
    SettledDrains(c, l);
    var d := c.(cancelled := c.cancelled + 1);
    SettledRecount(c, d, l);
    SettledDrains(d, l);
    Unqueued(c, o.offered);
    assert Cancel(q, l, o.offered) == c && Cancel(c, l, o.offered) == d;
  }

  lemma NeverQueued(s: State, l: Limits)
    requires Inv(s, l, s.offered)
    ensures Queued(s.rows, s.offered + 1) == 0
  {
    assert TicketOk(s, s.offered, s.offered + 1);
  }

  lemma Unqueued(s: State, t: Ticket)
    requires Queued(s.rows, t) == 0
    ensures Remove(s, t) == s
  {
    assert s.rows[0..] == s.rows;
    PositionMissing(s.rows, t, 0);
  }

  // ── Leaving ────────────────────────────────────────────────────────────────

  /** A timeout counts as refused and an abort as cancelled, of a request that waits and of no other; its waiter is
      gone, and then as many as fit are let in. */
  lemma LeavesExactly(s: State, l: Limits, e: Event, t: Ticket)
    requires Good(s, l) && (e == TimesOut(t) || e == AbortsWaiter(t))
    ensures Queued(s.rows, t) == 0 ==> Next(s, l, e) == s
    ensures Queued(s.rows, t) > 0 ==>
              var n := Next(s, l, e);
              && n.refused == s.refused + (if e.TimesOut? then 1 else 0)
              && n.cancelled == s.cancelled + (if e.TimesOut? then 0 else 1)
              && n.completed == s.completed && n.offered == s.offered && n.closed == s.closed
              && Queued(n.rows, t) == 0 && t !in n.grants
              && (forall u :: u in s.grants ==> u in n.grants && n.grants[u] == s.grants[u])
              && (forall u :: u != t ==>
                    Queued(s.rows, u) == Queued(n.rows, u) + if u in n.grants && u !in s.grants then 1 else 0)
              && n.admitted - s.admitted == |n.grants| - |s.grants|
  {
    hide Drain, Queued, Inv, Remove, StandsIn, TotalLen, Settled;
    GoodParts(s, l);
    RemoveInv(s, l, t, s.offered);
    RemoveFields(s, t);
    if Position(s.rows, t, 0).Some? {
      var r := if e.TimesOut? then Remove(s, t).(refused := s.refused + 1)
               else Remove(s, t).(cancelled := s.cancelled + 1);
      Removed(s, l, t, r);
      DrainLetsIn(r, l, s.offered);
      LeaveIs(s, l, e, t);
      hide Position, Next;
      NotGranted(s, l, s.offered, t);
    }
  }

  lemma NotGranted(s: State, l: Limits, n: nat, t: Ticket)
    requires Inv(s, l, n) && Queued(s.rows, t) == 1
    ensures t !in s.grants
  {
    assert TicketOk(s, n, t);
  }

  lemma LeaveIs(s: State, l: Limits, e: Event, t: Ticket)
    requires Position(s.rows, t, 0).Some? && (e == TimesOut(t) || e == AbortsWaiter(t))
    ensures Next(s, l, e) == Drain(if e.TimesOut? then Remove(s, t).(refused := s.refused + 1)
                                   else Remove(s, t).(cancelled := s.cancelled + 1), l)
  {
    hide Drain, Position;
    RemoveFields(s, t);
  }

  lemma Removed(s: State, l: Limits, t: Ticket, r: State)
    requires Inv(s, l, s.offered) && Position(s.rows, t, 0).Some?
    requires r == Remove(s, t).(refused := r.refused, cancelled := r.cancelled)
    ensures Inv(r, l, s.offered) && Queued(s.rows, t) == 1
    ensures forall u :: Queued(s.rows, u) == Queued(r.rows, u) + if u == t then 1 else 0
    ensures r.grants == s.grants && r.admitted == s.admitted && r.completed == s.completed && r.offered == s.offered
    ensures r.closed == s.closed
  {
    var at := Position(s.rows, t, 0).value;
    RemoveInv(s, l, t, s.offered);
    forall u ensures Queued(s.rows, u) == Queued(r.rows, u) + if u == t then 1 else 0 {
      SpliceTickets(s.rows, at.0, at.1, u);
    }
    assert TicketOk(s, s.offered, t);
    hide Queued, UseOk, QueueOk, TicketsOk, Position, Splice;
    SameInv(Remove(s, t), r, l, s.offered);
  }

  lemma SameInv(a: State, b: State, l: Limits, n: nat)
    requires Inv(a, l, n) && b == a.(refused := b.refused, cancelled := b.cancelled)
    ensures Inv(b, l, n)
  {
    SameUse(a, b, l);
    SameQueue(a, b, l);
    hide UseOk, QueueOk, Queued;
    assert forall t :: TicketOk(a, n, t) ==> TicketOk(b, n, t);
  }

  /** A release is counted once, gives the grant back, and lets in as many as fit. */
  lemma ReleasedExactly(s: State, l: Limits, t: Ticket)
    requires Good(s, l)
    ensures t !in s.grants ==> Next(s, l, Releases(t)) == s
    ensures t in s.grants ==>
              var n := Next(s, l, Releases(t));
              && n.completed == s.completed + 1 && n.refused == s.refused && n.cancelled == s.cancelled
              && n.offered == s.offered && t !in n.grants
              && (forall u :: u in s.grants && u != t ==> u in n.grants && n.grants[u] == s.grants[u])
              && (forall u :: u != t ==>
                    Queued(s.rows, u) == Queued(n.rows, u) + if u in n.grants && u !in s.grants then 1 else 0)
              && n.admitted - s.admitted == |n.grants| - |s.grants| + 1
  {
    hide Drain, Queued, Inv, Release, StandsIn, TotalLen, Settled;
    if t in s.grants {
      var r := Release(s, t);
      GivenBack(s, l, t);
      DrainLetsIn(r, l, s.offered);
    }
  }

  lemma GivenBack(s: State, l: Limits, t: Ticket)
    requires Good(s, l) && t in s.grants
    ensures var r := Release(s, t);
            && Inv(r, l, s.offered) && Queued(s.rows, t) == 0 && r.rows == s.rows && r.grants == s.grants - {t}
            && |r.grants| == |s.grants| - 1 && r.completed == s.completed + 1 && r.admitted == s.admitted
            && r.refused == s.refused && r.cancelled == s.cancelled && r.offered == s.offered
  {
    assert TicketOk(s, s.offered, t);
    hide UseOk, QueueOk, Settled, Queued;
    ReleaseInv(s, l, t);
    assert (s.grants - {t}).Keys == s.grants.Keys - {t};
  }

  /** Closing cancels every waiter and takes nothing from those let in; after that every request is cancelled. */
  lemma ClosedExactly(s: State, l: Limits)
    requires Good(s, l)
    ensures var n := Next(s, l, Closes);
            && n.closed && n.rows == [] && n.queued == 0 && n.queuedBytes == 0
            && n.cancelled == s.cancelled + s.queued && n.refused == s.refused && n.grants == s.grants
            && n.admitted == s.admitted && n.completed == s.completed && n.offered == s.offered
  {
  }

  /** A wake-up finds nobody to let in: whoever could run has been let in already. */
  lemma WakesNobody(s: State, l: Limits)
    requires Good(s, l)
    ensures Next(s, l, Wakes) == s
  {
    SettledDrains(s, l);
  }
}
