/** The admission object: queues, counters and maps updated in place, each operation proved against
    the function that the laws of the scheduler are about. */
module Scheduler {
  import opened Options
  import opened Admission

  class FairAdmission {
    const limits: Limits
    var queues: seq<Row>
    var activeKeys: map<KeyName, Use>
    var activeTenants: map<Tenant, nat>
    var grants: map<Ticket, Grant>
    var active: nat
    var queued: int
    var queuedBytes: int
    var closed: bool
    var lastTenant: Option<Tenant>
    var offered: nat
    var admitted: nat
    var refused: nat
    var completed: nat
    var cancelled: nat

    function Value(): State
      reads this
    {
      State(queues, activeKeys, activeTenants, grants, active, queued, queuedBytes, closed, lastTenant,
            offered, admitted, refused, completed, cancelled)
    }

    constructor (l: Limits)
      ensures Value() == EMPTY && limits == l && Good(Value(), limits)
    {
      limits := l;
      queues, activeKeys, activeTenants, grants := [], map[], map[], map[];
      active, queued, queuedBytes, closed, lastTenant := 0, 0, 0, false, None;
      offered, admitted, refused, completed, cancelled := 0, 0, 0, 0, 0;
      new;
      EmptyGood(l);
      hide Good;
    }

    /** Takes a slot if tenant, key and capacity allow it. */
    method TryReserve(ticket: Ticket, t: Tenant, key: KeyName, shared: bool) returns (ok: bool)
      modifies this
      ensures ok <==> Admissible(old(Value()), limits, t, key, shared)
      ensures Value() == if ok then Reserve(old(Value()), ticket, t, key, shared) else old(Value())
    {
      var tenantActive := if t in activeTenants then activeTenants[t] else 0;
      if tenantActive >= limits.perTenant { return false; }
      if key in activeKeys && (!shared || !activeKeys[key].shared) { return false; }
      if active >= limits.capacity { return false; }
      active, admitted := active + 1, admitted + 1;
      activeTenants := activeTenants[t := tenantActive + 1];
      activeKeys := activeKeys[key := Use((if key in activeKeys then activeKeys[key].count else 0) + 1, shared)];
      grants := grants[ticket := Grant(t, key, shared)];
      return true;
    }

    method RemoveWaiter(ticket: Ticket)
      modifies this`queues, this`queued, this`queuedBytes
      ensures Value() == Remove(old(Value()), ticket)
    {
      var at := Position(queues, ticket, 0);
      if at.None? { return; }
      var i, j := at.value.0, at.value.1;
      var w, left := queues[i].waiters[j], Splice(queues[i].waiters, j);
      queues := if left == [] then Splice(queues, i) else queues[i := queues[i].(waiters := left)];
      queued, queuedBytes := queued - 1, queuedBytes - w.bytes;
    }

    /** The scan of one tenant's queue: a waiter behind a queued writer of its key is skipped, the
        first one that gets a slot is taken. */
    method ScanTenant(i: nat) returns (r: Option<nat>)
      requires i < |queues|
      modifies this
      ensures r == FirstRunnable(old(Value()), limits, i, 0)
      ensures Value() == match r
                         case None => old(Value())
                         case Some(j) =>
                           var w := old(queues)[i].waiters[j];
                           Reserve(old(Value()), w.ticket, old(queues)[i].tenant, w.key, w.shared)
    {
      var ws, t := queues[i].waiters, queues[i].tenant;
      var waitingWriters: set<KeyName> := {};
      for j := 0 to |ws|
        invariant Value() == old(Value())
        invariant forall k :: k in waitingWriters <==> exists m :: 0 <= m < j && !ws[m].shared && ws[m].key == k
        invariant FirstRunnable(Value(), limits, i, 0) == FirstRunnable(Value(), limits, i, j)
      {
        if ws[j].key in waitingWriters {
          assert BehindWriter(ws, j);
        } else {
          assert !BehindWriter(ws, j);
          if !ws[j].shared { waitingWriters := waitingWriters + {ws[j].key}; }
          var ok := TryReserve(ws[j].ticket, t, ws[j].key, ws[j].shared);
          if ok { return Some(j); }
        }
      }
      return None;
    }

    /** The rotation over the tenants, starting after the one served last. */
    method ScanTenants() returns (r: Option<(nat, nat)>)
      modifies this
      ensures r == PickFrom(old(Value()), limits, 0)
      ensures Value() == match r
                         case None => old(Value())
                         case Some(p) =>
                           var w := old(queues)[p.0].waiters[p.1];
                           Reserve(old(Value()), w.ticket, old(queues)[p.0].tenant, w.key, w.shared)
    {
      var previous := if lastTenant.None? then -1 else RowOf(queues, lastTenant.value);
      for offset := 1 to |queues| + 1
        invariant Value() == old(Value())
        invariant PickFrom(Value(), limits, 0) == PickFrom(Value(), limits, offset - 1)
      {
        var i := (previous + offset) % |queues|;
        Rotation(previous, offset, |queues|);
        assert i == Visited(Value(), offset - 1);
        hide FirstRunnable, RowOf;
        var found := ScanTenant(i);
        if found.Some? { return Some((i, found.value)); }
      }
      return None;
    }

    /** Admits waiters until none can run. */
    method DrainQueues()
      requires Orderly(Value(), limits)
      modifies this
      ensures Value() == Drain(old(Value()), limits)
    {
      hide Orderly, Admit, PickFrom, TotalLen, Reserve, Position, Remove;
      while !closed && queued > 0
        invariant Orderly(Value(), limits)
        invariant Drain(Value(), limits) == Drain(old(Value()), limits)
        decreases TotalLen(queues)
      {
        ghost var s := Value();
        var next := ScanTenants();
        if next.None? { return; }
        var i, j := next.value.0, next.value.1;
        AdmitKeeps(s, limits, i, j);
        DrainUnfolds(s, limits);
        AdmitIs(s, Value(), i, j);
        lastTenant := Some(queues[i].tenant);
        RemoveWaiter(queues[i].waiters[j].ticket);
      }
    }

    method Cancels(ticket: Ticket)
      requires Inv(Value(), limits, offered)
      modifies this
      ensures Value() == Cancel(old(Value()), limits, ticket)
      ensures Inv(Value(), limits, offered)
    {
      hide Inv, Drain, Settled, Queued, Remove, Orderly, Position;
      ghost var s := Value();
      CancelInv(s, limits, ticket, offered);
      RemoveInv(s, limits, ticket, offered);
      RemoveFields(s, ticket);
      RemoveWaiter(ticket);
      cancelled := cancelled + 1;
      Recount(Remove(s, ticket), Value(), limits, offered);
      InvOrderly(Value(), limits, offered);
      DrainQueues();
    }

    method AcquireSlot(r: Request) returns (immediate: bool)
      requires Good(Value(), limits)
      modifies this
      ensures Value() == Acquire(old(Value()), limits, r) && Good(Value(), limits)
    {
      hide Good, Inv, Drain, Settled, Admissible, Full, Join, Orderly, Queued, Reserve, KeyQueued, Waiting;
      AcquireGood(Value(), limits, r);
      ghost var s := Value();
      GoodInv(s, limits);
      offered := offered + 1;
      Recount(s, Value(), limits, s.offered);
      if closed || r.aborted {
        cancelled := cancelled + 1;
        return false;
      }
      DrainInv(Value(), limits, s.offered);
      InvOrderly(Value(), limits, s.offered);
      DrainQueues();
      var queue := Waiting(Value(), r.tenant);
      if !KeyQueued(queue, r.key) {
        var ok := TryReserve(offered, r.tenant, r.key, r.shared);
        if ok { return true; }
      }
      if Full(Value(), limits, r.tenant, r.bytes) {
        refused := refused + 1;
        return false;
      }
      JoinQueue(r, s.offered);
      return false;
    }

    /** Queues the waiter, runs the caller's callback, and drains. */
    method JoinQueue(r: Request, ghost n: nat)
      requires Inv(Value(), limits, n) && n < offered && !closed && !Full(Value(), limits, r.tenant, r.bytes)
      modifies this
      ensures Value() == Join(old(Value()), limits, r)
    {
      hide Inv, Drain, Settled, Queued, Cancel, Full, Orderly;
      var ticket := offered;
      var w := Waiter(ticket, r.key, r.bytes, r.shared);
      EnqueueInv(Value(), limits, r.tenant, w, n);
      var i := RowOf(queues, r.tenant);
      queues := if i < 0 then queues + [Row(r.tenant, [w])]
          else queues[i := queues[i].(waiters := queues[i].waiters + [w])];
      queued, queuedBytes := queued + 1, queuedBytes + w.bytes;
      assert Value() == Enqueue(old(Value()), r.tenant, w);
      hide Enqueue;
      CancelKeepsOffered(Value(), limits, ticket);
      if r.callback == Aborts || r.callback == AbortsAndThrows { Cancels(ticket); }
      if r.callback == Throws || r.callback == AbortsAndThrows {
        Cancels(ticket);
      } else {
        InvOrderly(Value(), limits, offered);
        DrainQueues();
      }
    }

    /** What the release closure takes back, before it drains. */
    method GiveBack(ticket: Ticket)
      requires ticket in grants && active > 0
      modifies this
      ensures Value() == Release(old(Value()), ticket)
    {
      var g := grants[ticket];
      grants := grants - {ticket};
      active, completed := active - 1, completed + 1;
      var tenantActive := if g.tenant in activeTenants then activeTenants[g.tenant] else 0;
      if tenantActive > 1 { activeTenants := activeTenants[g.tenant := tenantActive - 1]; }
      else { activeTenants := activeTenants - {g.tenant}; }
      if g.key in activeKeys && activeKeys[g.key].count > 1 {
        activeKeys := activeKeys[g.key := activeKeys[g.key].(count := activeKeys[g.key].count - 1)];
      } else {
        activeKeys := activeKeys - {g.key};
      }
    }

    method ReleaseSlot(ticket: Ticket)
      requires Good(Value(), limits)
      modifies this
      ensures Value() == Finish(old(Value()), limits, ticket) && Good(Value(), limits)
    {
      hide Good, Inv, UseOk, Drain, Orderly, Release, Settled;
      LeaveGood(Value(), limits, Releases(ticket));
      GoodInv(Value(), limits);
      if ticket !in grants { return; }
      ReleaseUse(Value(), limits, ticket);
      ReleaseInv(Value(), limits, ticket);
      GiveBack(ticket);
      InvOrderly(Value(), limits, offered);
      DrainQueues();
    }

    method TimeOutWaiter(ticket: Ticket)
      requires Good(Value(), limits)
      modifies this
      ensures Value() == TimeOut(old(Value()), limits, ticket) && Good(Value(), limits)
    {
      hide Good, Inv, Drain, Remove, Orderly, Queued;
      ghost var s := Value();
      LeaveGood(s, limits, TimesOut(ticket));
      GoodInv(s, limits);
      RemoveFields(s, ticket);
      if Position(queues, ticket, 0).None? { return; }
      RemoveInv(s, limits, ticket, offered);
      RemoveWaiter(ticket);
      refused := refused + 1;
      Recount(Remove(s, ticket), Value(), limits, offered);
      InvOrderly(Value(), limits, offered);
      DrainQueues();
    }

    /** Rejects every waiter; nothing is admitted any more. */
    method CloseAll()
      requires Good(Value(), limits)
      modifies this
      ensures Value() == Close(old(Value())) && Good(Value(), limits)
    {
      hide Good, TotalLen, TotalBytes;
      LeaveGood(Value(), limits, Closes);
      NoEmptyRow(Value(), limits);
      closed := true;
      while queues != []
        invariant queued - TotalLen(queues) == old(queued) - TotalLen(old(queues))
        invariant queuedBytes - TotalBytes(queues) == old(queuedBytes) - TotalBytes(old(queues))
        invariant cancelled + TotalLen(queues) == old(cancelled) + TotalLen(old(queues))
        invariant closed && forall k :: 0 <= k < |queues| ==> queues[k].waiters != []
        invariant Value() == old(Value()).(closed := true, rows := queues, queued := queued, queuedBytes := queuedBytes,
                  cancelled := cancelled)
        decreases TotalLen(queues)
      {
        SpliceTotals(queues, 0, 0);
        var left := Splice(queues[0].waiters, 0);
        queued, queuedBytes := queued - 1, queuedBytes - queues[0].waiters[0].bytes;
        queues := if left == [] then Splice(queues, 0) else queues[0 := queues[0].(waiters := left)];
        cancelled := cancelled + 1;
      }
      NoRows(queues);
    }
  }

  /** The queues are in order: what the drain needs to know. */
  ghost predicate Orderly(s: State, l: Limits) {
    QueueOk(s, l) && TicketsOk(s, s.offered)
  }

  lemma InvOrderly(s: State, l: Limits, n: nat)
    requires Inv(s, l, n) && n <= s.offered
    ensures Orderly(s, l)
  {
    WeakenInv(s, l, n, s.offered);
  }

  lemma EmptyGood(l: Limits)
    ensures Good(EMPTY, l)
  {
    ReachableGood(l, []);
    hide Good;
  }

  lemma GoodInv(s: State, l: Limits)
    requires Good(s, l)
    ensures Inv(s, l, s.offered) && (s.closed || Settled(s, l)) && UseOk(s, l)
  {
  }

  lemma NoEmptyRow(s: State, l: Limits)
    requires Good(s, l)
    ensures forall k :: 0 <= k < |s.rows| ==> s.rows[k].waiters != []
  {
    forall k | 0 <= k < |s.rows| ensures s.rows[k].waiters != [] { assert RowOk(s.rows[k], l); }
  }

  lemma NoRows(rows: seq<Row>)
    ensures rows == [] ==> TotalLen(rows) == 0 && TotalBytes(rows) == 0
  {
  }

  lemma DrainUnfolds(s: State, l: Limits)
    requires !s.closed && s.queued > 0
    ensures Drain(s, l) == match PickFrom(s, l, 0) case None => s case Some(p) => Drain(Admit(s, p.0, p.1), l)
    ensures PickFrom(s, l, 0).Some? ==>
              TotalLen(Admit(s, PickFrom(s, l, 0).value.0, PickFrom(s, l, 0).value.1).rows) < TotalLen(s.rows)
  {
    hide PickFrom;
    match PickFrom(s, l, 0)
    case None =>
    case Some(p) => SpliceTotals(s.rows, p.0, p.1);
  }

  /** Reserving and then removing the waiter is admitting it. */
  lemma AdmitIs(s: State, r: State, i: nat, j: nat)
    requires i < |s.rows| && j < |s.rows[i].waiters| && Position(s.rows, s.rows[i].waiters[j].ticket, 0) == Some((i, j))
    requires r == Reserve(s, s.rows[i].waiters[j].ticket, s.rows[i].tenant, s.rows[i].waiters[j].key,
             s.rows[i].waiters[j].shared)
    ensures r.rows == s.rows
    ensures Remove(r.(last := Some(s.rows[i].tenant)), s.rows[i].waiters[j].ticket) == Admit(s, i, j)
  {
    hide Position;
  }

  lemma Rotation(previous: int, offset: nat, n: nat)
    requires -1 <= previous < n && 1 <= offset <= n
    ensures (previous + offset) % n == if previous + offset < n then previous + offset else previous + offset - n
  {
    if previous + offset >= n { assert previous + offset == n + (previous + offset - n); }
  }

  /** The waiter that got a slot is found again where it stood, and taking it out keeps the queues. */
  lemma AdmitKeeps(s: State, l: Limits, i: nat, j: nat)
    requires Orderly(s, l) && i < |s.rows| && j < |s.rows[i].waiters|
    ensures Orderly(Admit(s, i, j), l)
    ensures Position(s.rows, s.rows[i].waiters[j].ticket, 0) == Some((i, j))
  {
    RemoveQueue(s, l, i, j);
    RemoveTickets(s, i, j, s.offered);
    FoundAgain(s, i, j);
    hide QueueOk, Position;
    var a := Admit(s, i, j);
    SameQueue(RemoveAt(s, i, j), a, l);
    forall t ensures TicketOk(a, s.offered, t) { assert TicketOk(RemoveAt(s, i, j), s.offered, t); }
  }

  lemma FoundAgain(s: State, i: nat, j: nat)
    requires TicketsOk(s, s.offered) && i < |s.rows| && j < |s.rows[i].waiters|
    ensures Position(s.rows, s.rows[i].waiters[j].ticket, 0) == Some((i, j))
  {
    var t := s.rows[i].waiters[j].ticket;
    assert TicketOk(s, s.offered, t);
    SpliceTickets(s.rows, i, j, t);
    assert s.rows[0..] == s.rows;
    PositionMissing(s.rows, t, 0);
    var p := Position(s.rows, t, 0).value;
    if p != (i, j) { TwiceQueued(s.rows, t, i, j, p.0, p.1); }
  }

  lemma TwiceQueued(rows: seq<Row>, t: Ticket, i: nat, j: nat, a: nat, b: nat)
    requires i < |rows| && j < |rows[i].waiters| && a < |rows| && b < |rows[a].waiters| && (a, b) != (i, j)
    requires rows[i].waiters[j].ticket == t == rows[a].waiters[b].ticket
    ensures Queued(rows, t) >= 2
  {
    var ws := Splice(rows[i].waiters, j);
    SpliceTickets(rows, i, j, t);
    if ws == [] {
      var x := if a < i then a else a - 1;
      assert Splice(rows, i)[x] == rows[a];
      SpliceTickets(Splice(rows, i), x, b, t);
    } else {
      var r := rows[i := rows[i].(waiters := ws)];
      var y := if a == i && b > j then b - 1 else b;
      assert r[a].waiters[y].ticket == t;
      SpliceTickets(r, a, y, t);
    }
  }

  lemma CancelKeepsOffered(s: State, l: Limits, t: Ticket)
    requires Inv(s, l, s.offered)
    ensures Cancel(s, l, t).offered == s.offered
  {
    CancelInv(s, l, t, s.offered);
  }
}
