/** The in-process readers-writer lock with writer priority. */
module RwLock {
  type Ticket = nat
  datatype Waiter = Waiter(ticket: Ticket, exclusive: bool)

  /** `granted` and `aborted` record how waiters were settled. */
  datatype State = State(readers: nat, writer: bool, queue: seq<Waiter>, granted: set<Ticket>, aborted: set<Ticket>,
      arrivals: nat)

  datatype Event = Acquires(exclusive: bool) | Aborts(ticket: Ticket) | ReleasesShared | ReleasesExclusive

  predicate HasWriter(queue: seq<Waiter>) {
    exists i :: 0 <= i < |queue| && queue[i].exclusive
  }

  predicate Free(s: State, exclusive: bool) {
    !s.writer && (if exclusive then s.readers == 0 else !HasWriter(s.queue))
  }

  function Acquire(s: State, exclusive: bool): State {
    var t := s.(arrivals := s.arrivals + 1);
    if !Free(s, exclusive) then t.(queue := s.queue + [Waiter(s.arrivals, exclusive)])
    else if exclusive then t.(writer := true, granted := s.granted + {s.arrivals})
    else t.(readers := s.readers + 1, granted := s.granted + {s.arrivals})
  }

  predicate Waits(queue: seq<Waiter>, ticket: Ticket) {
    exists i :: 0 <= i < |queue| && queue[i].ticket == ticket
  }

  function Without(queue: seq<Waiter>, ticket: Ticket): seq<Waiter> {
    if queue == [] then [] else if queue[0].ticket == ticket then queue[1..]
    else [queue[0]] + Without(queue[1..], ticket)
  }

  function Abort(s: State, ticket: Ticket): State {
    if Waits(s.queue, ticket) then s.(queue := Without(s.queue, ticket), aborted := s.aborted + {ticket}) else s
  }

  /** How many readers stand in front of the first writer. */
  function LeadingReaders(queue: seq<Waiter>): (n: nat)
    ensures n <= |queue| && (forall i :: 0 <= i < n ==> !queue[i].exclusive) && (n < |queue| ==> queue[n].exclusive)
  {
    if queue == [] || queue[0].exclusive then 0 else 1 + LeadingReaders(queue[1..])
  }

  function Tickets(queue: seq<Waiter>): set<Ticket> {
    set i | 0 <= i < |queue| :: queue[i].ticket
  }

  /** The hand-over: the writer at the head, or every reader in front of the first writer. */
  function Dispatch(s: State): State {
    if s.queue == [] || s.writer then s
    else if s.queue[0].exclusive then
      if s.readers > 0 then s
      else s.(writer := true, queue := s.queue[1..], granted := s.granted + {s.queue[0].ticket})
    else
      var n := LeadingReaders(s.queue);
      s.(readers := s.readers + n, queue := s.queue[n..], granted := s.granted + Tickets(s.queue[..n]))
  }

  predicate Enabled(s: State, e: Event) {
    match e
    case Acquires(_) => true
    case Aborts(_) => true
    case ReleasesShared => s.readers > 0
    case ReleasesExclusive => s.writer
  }

  function Next(s: State, e: Event): State
    requires Enabled(s, e)
  {
    match e
    case Acquires(exclusive) => Acquire(s, exclusive)
    case Aborts(ticket) => Abort(s, ticket)
    case ReleasesShared => var t := s.(readers := s.readers - 1); if t.readers == 0 then Dispatch(t) else t
    case ReleasesExclusive => Dispatch(s.(writer := false))
  }

  // ── The object ─────────────────────────────────────────────────────────────

  class RWLock {
    var readers: nat
    var writerActive: bool
    var queue: seq<Waiter>
    ghost var granted: set<Ticket>
    ghost var aborted: set<Ticket>
    var arrivals: nat

    ghost function Value(): State
      reads this
    {
      State(readers, writerActive, queue, granted, aborted, arrivals)
    }

    constructor ()
      ensures Value() == State(0, false, [], {}, {}, 0)
    {
      readers, writerActive, queue, granted, aborted, arrivals := 0, false, [], {}, {}, 0;
    }

    method HasQueuedWriter() returns (r: bool)
      ensures r <==> HasWriter(queue)
    {
      for i := 0 to |queue|
        invariant forall j :: 0 <= j < i ==> !queue[j].exclusive
      {
        if queue[i].exclusive { return true; }
      }
      return false;
    }

    method AcquireLock(exclusive: bool) returns (ticket: Ticket, immediate: bool)
      modifies this
      ensures Value() == Next(old(Value()), Acquires(exclusive)) && ticket == old(arrivals)
      ensures immediate <==> Free(old(Value()), exclusive)
    {
      ticket := arrivals;
      arrivals := arrivals + 1;
      var blocked := HasQueuedWriter();
      if !exclusive && !writerActive && !blocked {
        readers, granted := readers + 1, granted + {ticket};
        return ticket, true;
      }
      if exclusive && !writerActive && readers == 0 {
        writerActive, granted := true, granted + {ticket};
        return ticket, true;
      }
      queue := queue + [Waiter(ticket, exclusive)];
      return ticket, false;
    }

    /** Rejecting a waiter takes it out of the queue; one already settled is left alone. */
    method AbortWaiter(ticket: Ticket)
      modifies this
      ensures Value() == Next(old(Value()), Aborts(ticket))
    {
      for i := 0 to |queue|
        invariant Value() == old(Value())
        invariant forall j :: 0 <= j < i ==> queue[j].ticket != ticket
      {
        if queue[i].ticket == ticket {
          WithoutAt(queue, i, ticket);
          queue, aborted := queue[..i] + queue[i + 1..], aborted + {ticket};
          return;
        }
      }
    }

    method ReleaseShared()
      requires readers > 0
      modifies this
      ensures Value() == Next(old(Value()), ReleasesShared)
    {
      readers := readers - 1;
      if readers == 0 { DispatchQueue(); }
    }

    method ReleaseExclusive()
      requires writerActive
      modifies this
      ensures Value() == Next(old(Value()), ReleasesExclusive)
    {
      writerActive := false;
      DispatchQueue();
    }

    method DispatchQueue()
      modifies this
      ensures Value() == Dispatch(old(Value()))
    {
      if queue == [] || writerActive { return; }
      if queue[0].exclusive {
        if readers > 0 { return; }
        writerActive, queue, granted := true, queue[1..], granted + {queue[0].ticket};
        return;
      }
      WakeReaders();
    }

    /** Wakes every reader in front of the first writer in one pass. */
    method WakeReaders()
      requires !writerActive
      modifies this`readers, this`queue, this`granted
      ensures var n := LeadingReaders(old(queue));
              && queue == old(queue)[n..] && readers == old(readers) + n
              && granted == old(granted) + Tickets(old(queue)[..n])
    {
      ghost var n := 0;
      ghost var all := queue;
      assert all[..0] == [] && all[0..] == all && Tickets([]) == {};
      hide Tickets;
      while |queue| > 0 && !queue[0].exclusive
        invariant 0 <= n <= |all| && queue == all[n..] && readers == old(readers) + n
        invariant granted == old(granted) + Tickets(all[..n])
        invariant n + LeadingReaders(queue) == LeadingReaders(all)
        decreases |queue|
      {
        assert all[..n + 1] == all[..n] + [queue[0]];
        TicketsMore(all[..n], queue[0]);
        granted := granted + {queue[0].ticket};
        readers, queue := readers + 1, queue[1..];
        n := n + 1;
      }
    }
  }

  lemma TicketsMore(q: seq<Waiter>, w: Waiter)
    ensures Tickets(q + [w]) == Tickets(q) + {w.ticket}
  {
    assert forall i :: 0 <= i < |q| ==> (q + [w])[i] == q[i];
    assert (q + [w])[|q|] == w;
    forall t | t in Tickets(q) ensures t in Tickets(q + [w]) {
      var i :| 0 <= i < |q| && q[i].ticket == t;
      assert (q + [w])[i].ticket == t;
    }
  }

  lemma {:induction false} WithoutAt(queue: seq<Waiter>, i: nat, ticket: Ticket)
    requires i < |queue| && queue[i].ticket == ticket && forall j :: 0 <= j < i ==> queue[j].ticket != ticket
    ensures Without(queue, ticket) == queue[..i] + queue[i + 1..]
  {
    if i > 0 {
      WithoutAt(queue[1..], i - 1, ticket);
      assert queue[1..][..i - 1] == queue[1..i] && queue[1..][i..] == queue[i + 1..];
    }
  }

  // ── What every run keeps ───────────────────────────────────────────────────

  ghost predicate Fresh(s: State, i: nat)
    requires i < |s.queue|
  {
    s.queue[i].ticket < s.arrivals && s.queue[i].ticket !in s.granted && s.queue[i].ticket !in s.aborted
  }

  /** Never a writer with readers; a queue only while the lock is held; the queue in arrival order and
      free of settled waiters. */
  ghost predicate Inv(s: State) {
    && !(s.writer && s.readers > 0)
    && (s.queue != [] ==> s.writer || s.readers > 0)
    && (forall i :: 0 <= i < |s.queue| ==> Fresh(s, i))
    && InOrder(s.queue)
    && s.granted !! s.aborted
    && (forall t :: t in s.granted ==> t < s.arrivals)
    && (forall t :: t in s.aborted ==> t < s.arrivals)
  }

  lemma AbortShape(s: State, ticket: Ticket) returns (i: nat)
    requires Waits(s.queue, ticket)
    ensures i < |s.queue| && s.queue[i].ticket == ticket && (forall j :: 0 <= j < i ==> s.queue[j].ticket != ticket)
    ensures Abort(s, ticket).queue == s.queue[..i] + s.queue[i + 1..]
  {
    i := 0;
    while s.queue[i].ticket != ticket
      invariant i < |s.queue| && forall j :: 0 <= j < i ==> s.queue[j].ticket != ticket
      decreases |s.queue| - i
    {
      i := i + 1;
    }
    WithoutAt(s.queue, i, ticket);
  }

  lemma FirstTicket(queue: seq<Waiter>)
    requires queue != []
    ensures Tickets(queue[..1]) == {queue[0].ticket}
  {
    TicketsMore([], queue[0]);
    assert [] + [queue[0]] == queue[..1];
  }

  lemma DispatchInv(s: State)
    requires !(s.writer && s.readers > 0) && !s.writer && s.readers == 0
    requires forall i :: 0 <= i < |s.queue| ==> Fresh(s, i)
    requires forall i, j :: 0 <= i < j < |s.queue| ==> s.queue[i].ticket < s.queue[j].ticket
    requires forall t :: t in s.granted || t in s.aborted ==> t < s.arrivals
    requires s.granted !! s.aborted
    ensures Inv(Dispatch(s))
  {
    var d := Dispatch(s);
    if s.queue != [] {
      var n := if s.queue[0].exclusive then 1 else LeadingReaders(s.queue);
      assert d.queue == s.queue[n..];
      if s.queue[0].exclusive { FirstTicket(s.queue); }
      assert d.granted == s.granted + Tickets(s.queue[..n]);
      forall i | 0 <= i < |d.queue| ensures Fresh(d, i) {
        assert Fresh(s, n + i) && d.queue[i] == s.queue[n + i];
      }
      forall t | t in d.granted ensures t < d.arrivals && t !in d.aborted {
        if t !in s.granted {
          var i :| 0 <= i < n && s.queue[..n][i].ticket == t;
          assert Fresh(s, i);
        }
      }
    }
  }

  lemma InvNext(s: State, e: Event)
    requires Inv(s) && Enabled(s, e)
    ensures Inv(Next(s, e))
  {
    match e
    case Acquires(exclusive) =>
      var n := Next(s, e);
      forall i | 0 <= i < |n.queue| ensures Fresh(n, i) { if i < |s.queue| { assert Fresh(s, i); } }
      forall i, j | 0 <= i < j < |n.queue| ensures n.queue[i].ticket < n.queue[j].ticket {
        assert Fresh(s, i);
      }
    case Aborts(ticket) => AbortInv(s, ticket);
    case ReleasesShared =>
      if s.readers == 1 {
        forall i | 0 <= i < |s.queue| ensures Fresh(s.(readers := 0), i) { assert Fresh(s, i); }
        DispatchInv(s.(readers := 0));
      } else {
        var r := s.(readers := s.readers - 1);
        forall i | 0 <= i < |r.queue| ensures Fresh(r, i) { assert Fresh(s, i); }
      }
    case ReleasesExclusive =>
      forall i | 0 <= i < |s.queue| ensures Fresh(s.(writer := false), i) { assert Fresh(s, i); }
      DispatchInv(s.(writer := false));
  }

  lemma AbortInv(s: State, ticket: Ticket)
    requires Inv(s)
    ensures Inv(Abort(s, ticket))
  {
    var n := Abort(s, ticket);
    if Waits(s.queue, ticket) {
      var k := AbortShape(s, ticket);
      assert Fresh(s, k);
      forall i | 0 <= i < |n.queue| ensures Fresh(n, i) {
        var o := if i < k then i else i + 1;
        assert Fresh(s, o) && n.queue[i] == s.queue[o];
      }
    }
  }

  function RunAll(s: State, events: seq<Event>): seq<State>
    ensures RunAll(s, events) != []
  {
    if events == [] then [s] else
    var before := RunAll(s, events[..|events| - 1]);
    var last := before[|before| - 1];
    if Enabled(last, events[|events| - 1]) then before + [Next(last, events[|events| - 1])] else before
  }

  /** In every reachable state: no writer with readers, no lost wake-up, no settled waiter queued. */
  lemma {:induction false} ReachableInv(events: seq<Event>, n: nat)
    requires n < |RunAll(State(0, false, [], {}, {}, 0), events)|
    ensures Inv(RunAll(State(0, false, [], {}, {}, 0), events)[n])
  {
    if events != [] {
      var init := events[..|events| - 1];
      var before := RunAll(State(0, false, [], {}, {}, 0), init);
      ReachableInv(init, |before| - 1);
      if n < |before| { ReachableInv(init, n); } else { InvNext(before[|before| - 1], events[|events| - 1]); }
    }
  }

  /** A queued writer is never overtaken: whatever happens while it waits, the number of waiters ahead
      of it does not grow, and whoever is granted stood ahead of it. */
  lemma NobodyOvertakesWriter(s: State, e: Event, k: nat, m: nat)
    requires Inv(s) && Enabled(s, e) && k < |s.queue| && s.queue[k].exclusive
    requires m < |Next(s, e).queue| && Next(s, e).queue[m] == s.queue[k]
    ensures m <= k
    ensures forall t :: t in Next(s, e).granted && t !in s.granted ==>
              t in Tickets(s.queue[..k]) && t != s.queue[k].ticket
    ensures Next(s, e).granted != s.granted ==> m < k
  {
    assert HasWriter(s.queue);
    Shape(s);
    hide HasWriter, Inv, Tickets, Dispatch, Acquire, Abort;
    match e
    case Acquires(exclusive) => ArrivalBehind(s, exclusive, k, m);
    case Aborts(ticket) => AbortAhead(s, ticket, k, m);
    case ReleasesShared =>
      if s.readers == 1 { DispatchedAhead(s.(readers := 0), k, m); } else { SamePlace(s, k, m); }
    case ReleasesExclusive => DispatchedAhead(s.(writer := false), k, m);
  }

  ghost predicate InOrder(queue: seq<Waiter>) {
    forall i, j :: 0 <= i < j < |queue| ==> queue[i].ticket < queue[j].ticket
  }

  lemma Shape(s: State)
    requires Inv(s)
    ensures InOrder(s.queue) && (s.writer ==> s.readers == 0)
  {
  }

  lemma SamePlace(s: State, k: nat, m: nat)
    requires InOrder(s.queue) && k < |s.queue| && m < |s.queue| && s.queue[m] == s.queue[k]
    ensures m == k
  {
  }

  lemma ArrivalBehind(s: State, exclusive: bool, k: nat, m: nat)
    requires Inv(s) && k < |s.queue| && HasWriter(s.queue)
    requires m < |Acquire(s, exclusive).queue| && Acquire(s, exclusive).queue[m] == s.queue[k]
    ensures m == k && Acquire(s, exclusive).granted == s.granted
  {
    hide HasWriter;
    assert Fresh(s, k);
    assert m < |s.queue| ==> Acquire(s, exclusive).queue[m] == s.queue[m];
  }

  lemma AbortAhead(s: State, ticket: Ticket, k: nat, m: nat)
    requires Inv(s) && k < |s.queue| && m < |Abort(s, ticket).queue| && Abort(s, ticket).queue[m] == s.queue[k]
    ensures m <= k && Abort(s, ticket).granted == s.granted
  {
    if Waits(s.queue, ticket) {
      var i := AbortShape(s, ticket);
      assert Abort(s, ticket).queue[m] == s.queue[if m < i then m else m + 1];
    }
  }

  lemma DispatchedAhead(s: State, k: nat, m: nat)
    requires !s.writer && s.readers == 0 && k < |s.queue| && s.queue[k].exclusive
    requires InOrder(s.queue)
    requires m < |Dispatch(s).queue| && Dispatch(s).queue[m] == s.queue[k]
    ensures m < k
    ensures forall t :: t in Dispatch(s).granted && t !in s.granted ==>
            t in Tickets(s.queue[..k]) && t != s.queue[k].ticket
  {
    var n := if s.queue[0].exclusive then 1 else LeadingReaders(s.queue);
    assert Dispatch(s).queue == s.queue[n..];
    assert s.queue[n + m] == s.queue[k];
    assert n + m == k;
    forall t | t in Dispatch(s).granted && t !in s.granted
      ensures t in Tickets(s.queue[..k]) && t != s.queue[k].ticket
    {
      var i :| 0 <= i < n && s.queue[i].ticket == t;
      assert s.queue[..k][i].ticket == t;
    }
  }

  // ── Readers are not first come, first served ───────────────────────────────

  /** A newcomer passes a queued reader exactly when readers hold the lock and no writer is queued:
      the state a writer leaves behind when it aborts in front of readers. */
  lemma ReaderOvertakesExactly(s: State)
    requires Inv(s) && s.queue != []
    ensures s.arrivals in Acquire(s, false).granted <==> !s.writer && !HasWriter(s.queue)
    ensures s.arrivals in Acquire(s, false).granted ==> s.readers > 0 && forall i :: 0 <= i < |s.queue| ==>
            !s.queue[i].exclusive
  {
  }

  /** A writer at the head of the queue gives up while readers hold the lock. */
  predicate HeadAborts(s: State, e: Event) {
    e.Aborts? && !s.writer && s.queue != [] && s.queue[0] == Waiter(e.ticket, true)
  }

  function Last(s: State, events: seq<Event>): State {
    var states := RunAll(s, events); states[|states| - 1]
  }

  /** In some moment of the run. */
  predicate EverHeadAborts(s: State, events: seq<Event>) {
    if events == [] then false else
    var n := |events| - 1;
    EverHeadAborts(s, events[..n]) || (Enabled(Last(s, events[..n]), events[n])
        && HeadAborts(Last(s, events[..n]), events[n]))
  }

  /** While readers hold the lock, whoever waits first is a writer. */
  predicate WriterFirst(s: State) {
    !s.writer && s.queue != [] ==> s.queue[0].exclusive
  }

  lemma {:induction false} LeadingThenWriter(queue: seq<Waiter>)
    ensures var n := LeadingReaders(queue); n < |queue| ==> queue[n].exclusive
  {
    if queue != [] && !queue[0].exclusive { LeadingThenWriter(queue[1..]); }
  }

  lemma WriterFirstNext(s: State, e: Event)
    requires Inv(s) && Enabled(s, e) && WriterFirst(s) && !HeadAborts(s, e)
    ensures WriterFirst(Next(s, e))
  {
    match e
    case Acquires(_) =>
    case Aborts(ticket) =>
      if Waits(s.queue, ticket) {
        var i := AbortShape(s, ticket);
        assert Abort(s, ticket).queue != [] && i > 0 ==> Abort(s, ticket).queue[0] == s.queue[0];
      }
    case ReleasesShared => LeadingThenWriter(s.queue);
    case ReleasesExclusive => LeadingThenWriter(s.queue);
  }

  /** So a queue of readers behind readers, which newcomers pass, has one cause: in every run, it is
      there only if a writer at its head has given up. */
  lemma {:induction false} OvertakingNeedsAbort(events: seq<Event>)
    requires !EverHeadAborts(State(0, false, [], {}, {}, 0), events)
    ensures WriterFirst(Last(State(0, false, [], {}, {}, 0), events))
    ensures var s := Last(State(0, false, [], {}, {}, 0), events);
            s.queue != [] ==> s.arrivals !in Acquire(s, false).granted
  {
    var start := State(0, false, [], {}, {}, 0);
    var s := Last(start, events);
    ReachableInv(events, |RunAll(start, events)| - 1);
    if events != [] {
      var n := |events| - 1;
      OvertakingNeedsAbort(events[..n]);
      ReachableInv(events[..n], |RunAll(start, events[..n])| - 1);
      if Enabled(Last(start, events[..n]), events[n]) { WriterFirstNext(Last(start, events[..n]), events[n]); }
    }
    if s.queue != [] { ReaderOvertakesExactly(s); }
  }

  /** It does happen: a reader holds, a writer and a reader queue up, the writer aborts, and a reader
      that comes after is let in first. */
  lemma ReaderOvertaken()
    ensures var s0 := State(0, false, [], {}, {}, 0);
            var s := Next(Next(Next(Next(Next(s0, Acquires(false)), Acquires(true)), Acquires(false)), Aborts(1)),
                Acquires(false));
            s.queue == [Waiter(2, false)] && 3 in s.granted
  {
    var s0 := State(0, false, [], {}, {}, 0);
    var s1 := Next(s0, Acquires(false));
    assert s1 == State(1, false, [], {0}, {}, 1);
    var s2 := Next(s1, Acquires(true));
    assert s2 == State(1, false, [Waiter(1, true)], {0}, {}, 2);
    var s3 := Next(s2, Acquires(false));
    assert s2.queue[0].exclusive;
    assert s3 == State(1, false, [Waiter(1, true), Waiter(2, false)], {0}, {}, 3);
    var s4 := Next(s3, Aborts(1));
    assert s3.queue[0].ticket == 1;
    assert s4.queue == [Waiter(2, false)];
  }

  // ── Who was let in ─────────────────────────────────────────────────────────

  const START := State(0, false, [], {}, {}, 0)

  /** Every event was enabled when it came. */
  predicate Runs(events: seq<Event>) {
    forall k :: 0 <= k < |events| ==> Enabled(Last(START, events[..k]), events[k])
  }

  /** What the tickets handed out asked for, in the order of the requests: exclusive or not. */
  function Kinds(events: seq<Event>): seq<bool> {
    if events == [] then [] else
    var n := |events| - 1;
    Kinds(events[..n]) + if events[n].Acquires? then [events[n].exclusive] else []
  }

  function Count(events: seq<Event>, e: Event): nat {
    if events == [] then 0 else Count(events[..|events| - 1], e) + if events[|events| - 1] == e then 1 else 0
  }

  /** The tickets of this kind among those granted. */
  function OfKind(granted: set<Ticket>, kinds: seq<bool>, exclusive: bool): set<Ticket> {
    set t | t in granted && t < |kinds| && kinds[t] == exclusive
  }

  ghost predicate Queued(s: State, kinds: seq<bool>) {
    forall i :: 0 <= i < |s.queue| ==> s.queue[i].ticket < |kinds| && s.queue[i].exclusive == kinds[s.queue[i].ticket]
  }

  /** Each ticket handed out is queued, granted or aborted. */
  ghost predicate Accounted(s: State) {
    forall t :: 0 <= t < s.arrivals ==> t in s.granted || t in s.aborted || Waits(s.queue, t)
  }

  ghost predicate Counts(s: State, kinds: seq<bool>, shared: nat, exclusive: nat) {
    && |OfKind(s.granted, kinds, false)| == s.readers + shared
    && |OfKind(s.granted, kinds, true)| == (if s.writer then 1 else 0) + exclusive
  }

  ghost predicate Ledger(s: State, kinds: seq<bool>, shared: nat, exclusive: nat) {
    s.arrivals == |kinds| && Queued(s, kinds) && Accounted(s) && Counts(s, kinds, shared, exclusive)
  }

  lemma {:induction false} TicketsCount(q: seq<Waiter>)
    requires InOrder(q)
    ensures |Tickets(q)| == |q|
    decreases |q|
  {
    if q != [] {
      var n := |q| - 1;
      TicketsCount(q[..n]);
      assert q == q[..n] + [q[n]];
      TicketsMore(q[..n], q[n]);
      assert q[n].ticket !in Tickets(q[..n]);
    }
  }

  lemma MoreGranted(granted: set<Ticket>, kinds: seq<bool>, more: set<Ticket>, exclusive: bool)
    requires granted !! more && forall t :: t in more ==> t < |kinds| && kinds[t] == exclusive
    ensures |OfKind(granted + more, kinds, exclusive)| == |OfKind(granted, kinds, exclusive)| + |more|
    ensures OfKind(granted + more, kinds, !exclusive) == OfKind(granted, kinds, !exclusive)
  {
    assert OfKind(granted + more, kinds, exclusive) == OfKind(granted, kinds, exclusive) + more;
  }

  lemma MoreKinds(s: State, kinds: seq<bool>, exclusive: bool)
    requires s.arrivals == |kinds| && forall t :: t in s.granted ==> t < s.arrivals
    ensures forall x :: OfKind(s.granted, kinds + [exclusive], x) == OfKind(s.granted, kinds, x)
  {
    forall x ensures OfKind(s.granted, kinds + [exclusive], x) == OfKind(s.granted, kinds, x) {}
  }

  lemma AcquireLedger(s: State, kinds: seq<bool>, shared: nat, exclusive: nat, e: bool)
    requires Inv(s) && Ledger(s, kinds, shared, exclusive)
    ensures Ledger(Acquire(s, e), kinds + [e], shared, exclusive)
  {
    var n := Acquire(s, e);
    MoreKinds(s, kinds, e);
    if Free(s, e) { MoreGranted(s.granted, kinds + [e], {s.arrivals}, e); }
    forall t | 0 <= t < n.arrivals ensures t in n.granted || t in n.aborted || Waits(n.queue, t) {
      if t < s.arrivals && Waits(s.queue, t) {
        var i :| 0 <= i < |s.queue| && s.queue[i].ticket == t;
        assert n.queue[i].ticket == t;
      } else if t == s.arrivals && !Free(s, e) {
        assert n.queue[|s.queue|].ticket == t;
      }
    }
  }

  lemma AbortLedger(s: State, kinds: seq<bool>, shared: nat, exclusive: nat, ticket: Ticket)
    requires Inv(s) && Ledger(s, kinds, shared, exclusive)
    ensures Ledger(Abort(s, ticket), kinds, shared, exclusive)
  {
    if Waits(s.queue, ticket) {
      var n := Abort(s, ticket);
      var k := AbortShape(s, ticket);
      forall t | 0 <= t < n.arrivals ensures t in n.granted || t in n.aborted || Waits(n.queue, t) {
        if t != ticket && Waits(s.queue, t) {
          var i :| 0 <= i < |s.queue| && s.queue[i].ticket == t;
          assert n.queue[if i < k then i else i - 1].ticket == t;
        }
      }
      forall i | 0 <= i < |n.queue|
        ensures n.queue[i].ticket < |kinds| && n.queue[i].exclusive == kinds[n.queue[i].ticket]
      {
        assert n.queue[i] == s.queue[if i < k then i else i + 1];
      }
    }
  }

  lemma DispatchLedger(s: State, kinds: seq<bool>, shared: nat, exclusive: nat)
    requires !s.writer && s.readers == 0 && InOrder(s.queue) && forall i :: 0 <= i < |s.queue| ==> Fresh(s, i)
    requires Ledger(s, kinds, shared, exclusive)
    ensures Ledger(Dispatch(s), kinds, shared, exclusive)
  {
    if s.queue != [] {
      var d, x := Dispatch(s), s.queue[0].exclusive;
      var n := if x then 1 else LeadingReaders(s.queue);
      if x { FirstTicket(s.queue); }
      assert d.queue == s.queue[n..] && d.granted == s.granted + Tickets(s.queue[..n]);
      TicketsCount(s.queue[..n]);
      forall t | t in Tickets(s.queue[..n]) ensures t !in s.granted && t < |kinds| && kinds[t] == x {
        var i :| 0 <= i < n && s.queue[..n][i].ticket == t;
        assert Fresh(s, i);
      }
      MoreGranted(s.granted, kinds, Tickets(s.queue[..n]), x);
      WokenAccounted(s, d, n);
    }
  }

  lemma WokenAccounted(s: State, d: State, n: nat)
    requires n <= |s.queue| && d.queue == s.queue[n..] && d.granted == s.granted + Tickets(s.queue[..n])
    requires d.aborted == s.aborted && d.arrivals == s.arrivals && Accounted(s)
    ensures Accounted(d)
  {
    forall t | 0 <= t < d.arrivals ensures t in d.granted || t in d.aborted || Waits(d.queue, t) {
      if Waits(s.queue, t) {
        var i :| 0 <= i < |s.queue| && s.queue[i].ticket == t;
        if i < n { assert s.queue[..n][i].ticket == t; } else { assert d.queue[i - n].ticket == t; }
      }
    }
  }

  lemma LedgerNext(s: State, kinds: seq<bool>, shared: nat, exclusive: nat, e: Event)
    requires Inv(s) && Enabled(s, e) && Ledger(s, kinds, shared, exclusive)
    ensures Ledger(Next(s, e), kinds + (if e.Acquires? then [e.exclusive] else []),
                   shared + (if e.ReleasesShared? then 1 else 0), exclusive + if e.ReleasesExclusive? then 1 else 0)
  {
    assert kinds + [] == kinds;
    match e
    case Acquires(x) => AcquireLedger(s, kinds, shared, exclusive, x);
    case Aborts(ticket) => AbortLedger(s, kinds, shared, exclusive, ticket);
    case ReleasesShared =>
      var t := s.(readers := s.readers - 1);
      LedgerOnly(s, t, kinds, shared + 1, exclusive);
      if t.readers == 0 { DispatchLedger(t, kinds, shared + 1, exclusive); }
    case ReleasesExclusive =>
      var t := s.(writer := false);
      LedgerOnly(s, t, kinds, shared, exclusive + 1);
      DispatchLedger(t, kinds, shared, exclusive + 1);
  }

  lemma LedgerOnly(s: State, t: State, kinds: seq<bool>, shared: nat, exclusive: nat)
    requires Inv(s) && s.arrivals == |kinds| && Queued(s, kinds) && Accounted(s)
    requires t == s.(readers := t.readers, writer := t.writer) && Counts(t, kinds, shared, exclusive)
    ensures Ledger(t, kinds, shared, exclusive) && forall i :: 0 <= i < |t.queue| ==> Fresh(t, i)
  {
    forall i | 0 <= i < |t.queue| ensures Fresh(t, i) { assert Fresh(s, i); }
  }

  lemma RunsBefore(events: seq<Event>)
    requires Runs(events) && events != []
    ensures var n := |events| - 1; Runs(events[..n]) && Enabled(Last(START, events[..n]), events[n])
  {
    hide Enabled, Last;
    var n := |events| - 1;
    assert forall k :: 0 <= k < n ==> events[..n][..k] == events[..k] && events[..n][k] == events[k];
  }

  lemma {:induction false} RunLedger(events: seq<Event>)
    requires Runs(events)
    ensures Inv(Last(START, events))
    ensures Ledger(Last(START, events), Kinds(events), Count(events, ReleasesShared), Count(events, ReleasesExclusive))
    decreases |events|
  {
    ReachableInv(events, |RunAll(START, events)| - 1);
    if events == [] {
      assert OfKind({}, [], false) == {} && OfKind({}, [], true) == {};
    } else {
      var n := |events| - 1;
      var init := events[..n];
      RunsBefore(events);
      assert Last(START, events) == Next(Last(START, init), events[n]);
      hide Ledger, Inv, Runs, Enabled, Last, RunAll, Next;
      RunLedger(init);
      LedgerNext(Last(START, init), Kinds(init), Count(init, ReleasesShared), Count(init, ReleasesExclusive),
          events[n]);
    }
  }

  /** Over every run, from its requests and releases alone: the lock is held by as many readers as shared tickets were
      granted and not released, and by a writer if and only if exclusive tickets granted exceed the releases, by one.
      Every ticket handed out is exactly one of queued, granted and aborted, and queued as what it asked for. So no
      writer is let in before every reader has released, and no reader before the writer has. */
  lemma HoldersAreHistory(events: seq<Event>)
    requires Runs(events)
    ensures var s, kinds := Last(START, events), Kinds(events);
            var readers := |OfKind(s.granted, kinds, false)| - Count(events, ReleasesShared);
            var writers := |OfKind(s.granted, kinds, true)| - Count(events, ReleasesExclusive);
            && readers == s.readers && writers == (if s.writer then 1 else 0) && !(readers > 0 && writers > 0)
            && s.arrivals == |kinds| && (Enabled(s, ReleasesShared) <==> readers > 0)
            && (Enabled(s, ReleasesExclusive) <==> writers > 0)
            && (forall t :: t in s.granted || t in s.aborted ==> t < |kinds|) && s.granted !! s.aborted
            && (forall t :: 0 <= t < |kinds| ==>
                  (Waits(s.queue, t) <==> t !in s.granted && t !in s.aborted))
            && (forall i :: 0 <= i < |s.queue| ==>
                  s.queue[i].ticket < |kinds| && s.queue[i].exclusive == kinds[s.queue[i].ticket])
  {
    RunLedger(events);
    var s, kinds := Last(START, events), Kinds(events);
    forall t | 0 <= t < |kinds| && Waits(s.queue, t) ensures t !in s.granted && t !in s.aborted {
      var i :| 0 <= i < |s.queue| && s.queue[i].ticket == t;
      assert Fresh(s, i);
    }
    hide OfKind, RunAll, Kinds, Count;
  }

  /** Settling is for good, and a waiter is aborted only by its own abort while it is queued. */
  lemma SettledForGood(s: State, e: Event, t: Ticket)
    requires Inv(s) && Enabled(s, e)
    ensures t in s.granted ==> t in Next(s, e).granted
    ensures t in Next(s, e).aborted <==> t in s.aborted || (e == Aborts(t) && Waits(s.queue, t))
  {
  }
}
