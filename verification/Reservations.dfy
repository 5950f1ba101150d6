/** Namespace reservations: operations that reserve overlapping paths queue behind one another, and none of
    their mutations is journaled in a scope other than the one it reserved in, but for one exception. What
    an operation then touches need not lie in what it reserved: see `Segments`. */
module Reservations {
  import Paths

  type Ticket = nat

  /** The scope an operation reserved in. */
  datatype Stamp = Stamp(generation: nat, active: bool)
  datatype Reservation = Reservation(paths: seq<string>, waits: set<Ticket>, running: bool, stamp: Stamp)

  /** A journal entry: the operation it came from, the scope that operation reserved in, and whether
      it is a later segment of a recursive directory creation. */
  datatype Made = Made(op: Ticket, stamp: Stamp, again: bool)

  /** `live` holds the reservations not yet released, by arrival number. */
  datatype State = State(live: map<Ticket, Reservation>, arrivals: nat, scope: Stamp, lost: bool, journal: seq<Made>)

  predicate Conflict(ps: seq<string>, qs: seq<string>) {
    exists i, j :: 0 <= i < |ps| && 0 <= j < |qs| && Paths.Overlaps(ps[i], qs[j])
  }

  function Pending(live: map<Ticket, Reservation>, paths: seq<string>): set<Ticket> {
    set t | t in live && Conflict(live[t].paths, paths)
  }

  function Arrive(s: State, paths: seq<string>): State {
    s.(live := s.live[s.arrivals := Reservation(paths, Pending(s.live, paths), false, s.scope)], arrivals :=
        s.arrivals + 1)
  }

  /** Every reservation it waits for has been released. */
  predicate Admitted(s: State, t: Ticket)
    requires t in s.live
  {
    s.live[t].waits !! s.live.Keys
  }

  /** The scope has not been lost. */
  predicate Alive(s: State) {
    !(s.scope.active && s.lost)
  }

  /** `assertReservation`. */
  predicate Passes(s: State, t: Ticket)
    requires t in s.live
  {
    s.live[t].stamp == s.scope && Alive(s)
  }

  function Start(s: State, t: Ticket): State
    requires t in s.live
  {
    if Passes(s, t) then s.(live := s.live[t := s.live[t].(running := true)]) else Release(s, t)
  }

  function Release(s: State, t: Ticket): State {
    s.(live := s.live - {t})
  }

  /** A mutation of a running operation. The first one follows a check of its reservation, made when it
      started or again after its blob was uploaded; `again` is a later segment of `mkdir -p`, for which
      only the scope's own state is looked at. Outside a scope it goes to the database. */
  function Mutate(s: State, t: Ticket, again: bool): State
    requires t in s.live
  {
    if !(if again then Alive(s) else Passes(s, t)) then Release(s, t)
    else if s.scope.active then s.(journal := s.journal + [Made(t, s.live[t].stamp, again)])
    else s
  }

  datatype Event =
    | Arrives(paths: seq<string>)
    | Starts(t: Ticket)
    | Mutates(t: Ticket, again: bool)
    | Releases(t: Ticket)
    | Begins
    | Loses
    | Ends

  predicate Enabled(s: State, e: Event) {
    match e
    case Arrives(_) => true
    case Starts(t) => t in s.live && !s.live[t].running && Admitted(s, t)
    case Releases(t) => t in s.live && s.live[t].running
    case Mutates(t, _) => t in s.live && s.live[t].running
    case Begins => !s.scope.active
    case Loses => s.scope.active
    case Ends => s.scope.active
  }

  function Next(s: State, e: Event): State
    requires Enabled(s, e)
  {
    match e
    case Arrives(paths) => Arrive(s, paths)
    case Starts(t) => Start(s, t)
    case Releases(t) => Release(s, t)
    case Mutates(t, again) => Mutate(s, t, again)
    case Begins => s.(scope := Stamp(s.scope.generation + 1, true), lost := false, journal := [])
    case Loses => s.(lost := true)
    case Ends => s.(scope := Stamp(s.scope.generation, false), journal := [])
  }

  // ── What every run keeps ───────────────────────────────────────────────────

  ghost predicate Ordered(s: State, t: Ticket)
    requires t in s.live
  {
    && t < s.arrivals && (forall w :: w in s.live[t].waits ==> w < t)
    && (s.live[t].running ==> Admitted(s, t))
  }

  ghost predicate Queued(s: State, t: Ticket, u: Ticket)
    requires t in s.live && u in s.live
  {
    t < u && Conflict(s.live[t].paths, s.live[u].paths) ==> t in s.live[u].waits
  }

  /** Scopes and the times between them, in the order in which they come. */
  function Period(stamp: Stamp): nat {
    2 * stamp.generation + if stamp.active then 0 else 1
  }

  ghost predicate Inv(s: State) {
    && (forall t :: t in s.live ==> Period(s.live[t].stamp) <= Period(s.scope))
    && (forall t :: t in s.live ==> Ordered(s, t))
    && (forall t, u :: t in s.live && u in s.live ==> Queued(s, t, u))
  }

  lemma InvNext(s: State, e: Event)
    requires Inv(s) && Enabled(s, e)
    ensures Inv(Next(s, e))
  {
    hide Conflict;
    var n := Next(s, e);
    forall t | t in n.live ensures Ordered(n, t) {
      if t in s.live { assert Ordered(s, t); }
    }
    forall t, u | t in n.live && u in n.live ensures Queued(n, t, u) {
      if t in s.live { assert Ordered(s, t); }
      if t in s.live && u in s.live { assert Queued(s, t, u); }
    }
  }

  datatype Reached = Stuck | At(state: State)

  /** The state after a run, if every event was enabled when it came. */
  function RunAll(s: State, events: seq<Event>): Reached {
    if events == [] then At(s) else
    match RunAll(s, events[..|events| - 1])
    case Stuck => Stuck
    case At(a) => if Enabled(a, events[|events| - 1]) then At(Next(a, events[|events| - 1])) else Stuck
  }

  lemma {:induction false} RunInv(s: State, events: seq<Event>)
    requires s.live == map[] && RunAll(s, events).At?
    ensures Inv(RunAll(s, events).state)
  {
    if events != [] {
      var init := events[..|events| - 1];
      RunInv(s, init);
      InvNext(RunAll(s, init).state, events[|events| - 1]);
    }
  }

  /** In every run no two operations that reserved overlapping paths run at once, and one that runs has no
      live predecessor with an overlapping path: they are served in arrival order. */
  lemma ExclusiveInOrder(s: State, events: seq<Event>, r: State, t: Ticket, u: Ticket)
    requires s.live == map[] && RunAll(s, events) == At(r)
    requires t in r.live && u in r.live && t != u && Conflict(r.live[t].paths, r.live[u].paths)
    ensures !(r.live[t].running && r.live[u].running)
    ensures t < u ==> !r.live[u].running
  {
    RunInv(s, events);
    ConflictSymmetric(r.live[t].paths, r.live[u].paths);
    assert Ordered(r, t) && Ordered(r, u) && Queued(r, t, u) && Queued(r, u, t);
    hide Conflict, RunAll, Inv;
  }

  lemma ConflictSymmetric(ps: seq<string>, qs: seq<string>)
    ensures Conflict(ps, qs) ==> Conflict(qs, ps)
  {
    if Conflict(ps, qs) {
      var i, j :| 0 <= i < |ps| && 0 <= j < |qs| && Paths.Overlaps(ps[i], qs[j]);
      assert Paths.Overlaps(qs[j], ps[i]);
    }
  }

  /** No deadlock: the oldest live reservation is never blocked. */
  lemma OldestCanMove(s: State)
    requires Inv(s) && s.live != map[]
    ensures exists t :: t in s.live && (s.live[t].running || Enabled(s, Starts(t)))
  {
    var t := Least(s.live.Keys);
    assert Ordered(s, t);
    assert Enabled(s, Starts(t)) || s.live[t].running;
  }

  predicate IsLeast(ts: set<Ticket>, t: Ticket) {
    t in ts && forall u :: u in ts ==> t <= u
  }

  lemma LeastExists(ts: set<Ticket>)
    requires ts != {}
    ensures exists t :: IsLeast(ts, t)
    decreases |ts|
  {
    var x :| x in ts;
    var rest := ts - {x};
    if rest == {} {
      forall u | u in ts ensures u == x { assert u !in rest; }
      assert IsLeast(ts, x);
    } else {
      LeastExists(rest);
      var m :| IsLeast(rest, m);
      assert forall u :: u in ts ==> u == x || u in rest;
      assert IsLeast(ts, if m <= x then m else x);
    }
  }

  ghost function Least(ts: set<Ticket>): (t: Ticket)
    requires ts != {}
    ensures IsLeast(ts, t)
  {
    LeastExists(ts);
    var t :| IsLeast(ts, t);
    t
  }

  /** Who a waiter still waits for. */
  function Blockers(s: State, t: Ticket): set<Ticket>
    requires t in s.live
  {
    s.live[t].waits * s.live.Keys
  }

  /** Later arrivals never get in front: what a waiter waits for only shrinks, and each release of a
      predecessor shrinks it. */
  lemma BlockersShrink(s: State, e: Event, t: Ticket)
    requires Inv(s) && Enabled(s, e) && t in s.live && t in Next(s, e).live
    ensures Blockers(Next(s, e), t) <= Blockers(s, t)
    ensures e.Releases? && e.t in Blockers(s, t) ==> Blockers(Next(s, e), t) < Blockers(s, t)
  {
    hide Conflict;
    assert Ordered(s, t);
  }

  // ── Scopes ─────────────────────────────────────────────────────────────────

  /** Everything in the journal but later segments of `mkdir -p` came from operations that reserved in
      the scope the journal belongs to. */
  ghost predicate OwnJournal(s: State) {
    && (s.journal != [] ==> s.scope.active)
    && forall i :: 0 <= i < |s.journal| ==> s.journal[i].again || s.journal[i].stamp == s.scope
  }

  /** In every run, whatever scopes were aborted, replaced or lost while operations waited. */
  lemma {:induction false} JournalIsItsScope(s: State, events: seq<Event>)
    requires s.live == map[] && s.journal == [] && RunAll(s, events).At?
    ensures OwnJournal(RunAll(s, events).state)
  {
    if events != [] {
      var init := events[..|events| - 1];
      JournalIsItsScope(s, init);
      OwnJournalNext(RunAll(s, init).state, events[|events| - 1]);
    }
  }

  lemma OwnJournalNext(s: State, e: Event)
    requires OwnJournal(s) && Enabled(s, e)
    ensures OwnJournal(Next(s, e))
  {
    var n := Next(s, e);
    forall i | 0 <= i < |n.journal| ensures n.journal[i].again || n.journal[i].stamp == n.scope {
      if i < |s.journal| { assert n.journal[i] == s.journal[i]; }
    }
  }

  // ── Scopes ─────────────────────────────────────────────────────────────────

  function Count(events: seq<Event>, e: Event): nat {
    if events == [] then 0 else Count(events[..|events| - 1], e) + if events[|events| - 1] == e then 1 else 0
  }

  ghost predicate LastAt(events: seq<Event>, i: nat, e: Event, other: Event) {
    i < |events| && events[i] == e && forall j :: i < j < |events| ==> events[j] != other
  }

  /** The last of these events in the run is the first of the two. */
  ghost predicate LastIs(events: seq<Event>, e: Event, other: Event) {
    exists i :: LastAt(events, i, e, other)
  }

  lemma LastAtGrows(init: seq<Event>, last: Event, i: nat, e: Event, other: Event)
    requires i < |init|
    ensures LastAt(init + [last], i, e, other) <==> LastAt(init, i, e, other) && last != other
  {
    var events := init + [last];
    assert forall j :: 0 <= j < |init| ==> events[j] == init[j];
    assert events[|init|] == last;
  }

  lemma LastGrows(events: seq<Event>, e: Event, other: Event)
    requires events != [] && e != other
    ensures var n := |events| - 1;
            LastIs(events, e, other) <==> events[n] == e || (LastIs(events[..n], e, other) && events[n] != other)
  {
    var n := |events| - 1;
    var init, last := events[..n], events[n];
    assert events == init + [last];
    assert last == e ==> LastAt(events, n, e, other);
    if i: nat :| LastAt(events, i, e, other) {
      if i < n { LastAtGrows(init, last, i, e, other); }
    }
    if i: nat :| LastAt(init, i, e, other) { LastAtGrows(init, last, i, e, other); }
  }

  /** Over every run: a scope is open between its beginning and its end and has the number of its beginning; it is lost
      if and only if it was lost since it began; and its journal has only what was recorded since then. */
  lemma {:induction false} ScopesAreHistory(s: State, events: seq<Event>, r: State)
    requires s == State(map[], s.arrivals, Stamp(s.scope.generation, false), false, []) && RunAll(s, events) == At(r)
    ensures r.scope.generation == s.scope.generation + Count(events, Begins)
    ensures r.scope.active <==> LastIs(events, Begins, Ends)
    ensures r.scope.active ==> (r.lost <==> LastIs(events, Loses, Begins))
    ensures !r.scope.active || events[|events| - 1] == Begins ==> r.journal == []
  {
    if events != [] {
      var n := |events| - 1;
      ScopesAreHistory(s, events[..n], RunAll(s, events[..n]).state);
      LastGrows(events, Begins, Ends);
      LastGrows(events, Loses, Begins);
      hide LastIs, Conflict;
    }
  }

  /** Once its scope is over an operation stays shut out, in every continuation: no later scope has the
      stamp again, and nothing it had checked is journaled. */
  lemma {:induction false} StaleForever(s: State, events: seq<Event>, r: State, t: Ticket)
    requires Inv(s) && RunAll(s, events) == At(r) && t in s.live && s.live[t].stamp != s.scope
    ensures Inv(r) && (t in r.live ==> r.live[t].stamp == s.live[t].stamp) && Period(s.live[t].stamp) < Period(r.scope)
    ensures t < r.arrivals && forall m :: m in r.journal && m.op == t && !m.again ==> m in s.journal
  {
    if events == [] {
      assert Ordered(s, t);
    } else {
      var init, e := events[..|events| - 1], events[|events| - 1];
      var a := RunAll(s, init).state;
      StaleForever(s, init, a, t);
      InvNext(a, e);
      hide Conflict, Inv, Pending;
    }
  }

  /** A mutation goes into the journal of a scope its operation did not reserve in exactly when it is a
      later segment of `mkdir -p` and the scope changed since. */
  lemma CrossesExactly(s: State, e: Event, m: Made)
    requires Enabled(s, e) && m !in s.journal
    ensures m in Next(s, e).journal && m.stamp != s.scope <==>
              && e.Mutates? && e.again && m == Made(e.t, s.live[e.t].stamp, true)
              && s.live[e.t].stamp != s.scope && s.scope.active && !s.lost
  {
  }

  /** It can happen: `mkdir -p /a/b` reserves outside a scope, a scope begins while `/a` commits, and
      `/a/b` goes into that scope's journal. */
  lemma MkdirCrossesScopes()
    ensures var s := State(map[], 0, Stamp(0, false), false, []);
            var r := RunAll(s, [Arrives(["/a"]), Starts(0), Mutates(0, false), Begins, Mutates(0, true)]);
            r.At? && r.state.scope == Stamp(1, true) && r.state.journal == [Made(0, Stamp(0, false), true)]
  {
    var s0 := State(map[], 0, Stamp(0, false), false, []);
    var es := [Arrives(["/a"]), Starts(0), Mutates(0, false), Begins, Mutates(0, true)];
    var op := Reservation(["/a"], {}, false, Stamp(0, false));
    assert Pending(map[], ["/a"]) == {};
    var s1 := s0.(live := map[0 := op], arrivals := 1);
    assert RunAll(s0, []) == At(s0) && es[..1][..0] == [];
    assert RunAll(s0, es[..1]) == At(s1);
    var s2 := s1.(live := map[0 := op.(running := true)]);
    assert es[..2][..1] == es[..1];
    assert RunAll(s0, es[..2]) == At(s2);
    assert es[..3][..2] == es[..2];
    assert RunAll(s0, es[..3]) == At(s2);
    assert es[..4][..3] == es[..3];
    var s4 := s2.(scope := Stamp(1, true));
    assert RunAll(s0, es[..4]) == At(s4);
    assert es[..5] == es && es[..4] == es[..|es| - 1];
  }

  // ── The object ─────────────────────────────────────────────────────────────

  /** The reservations, with the state of the scope that they ask the persistence about. */
  class NamespaceOperations {
    var live: map<Ticket, Reservation>
    var arrivals: nat
    var scope: Stamp
    var lost: bool
    var journal: seq<Made>

    function Value(): State
      reads this
    {
      State(live, arrivals, scope, lost, journal)
    }

    constructor ()
      ensures Inv(Value()) && live == map[]
    {
      live, arrivals, scope, lost, journal := map[], 0, Stamp(0, false), false, [];
    }

    /** Collects the live overlapping reservations, then joins them. */
    method Reserve(paths: seq<string>) returns (t: Ticket)
      requires Inv(Value())
      modifies this
      ensures Inv(Value()) && Value() == Next(old(Value()), Arrives(paths)) && t == old(arrivals)
    {
      InvNext(Value(), Arrives(paths));
      var pending: set<Ticket> := {};
      var todo := live.Keys;
      while todo != {}
        invariant todo <= live.Keys && pending == set u | u in live && u !in todo && Conflict(live[u].paths, paths)
        decreases |todo|
      {
        var u :| u in todo;
        if Conflict(live[u].paths, paths) { pending := pending + {u}; }
        todo := todo - {u};
      }
      t := arrivals;
      assert pending == Pending(live, paths);
      live := live[t := Reservation(paths, pending, false, scope)];
      arrivals := arrivals + 1;
    }

    /** Refuses unless the scope is the one reserved in and has not been lost. */
    method AssertReservation(stamp: Stamp) returns (ok: bool)
      ensures ok <==> stamp == scope && !(scope.active && lost)
    {
      if stamp.active != scope.active || stamp.generation != scope.generation { return false; }
      return !(scope.active && lost);
    }

    /** Once every awaited reservation is released: run, unless the check refuses. */
    method Begin(t: Ticket) returns (ok: bool)
      requires Inv(Value()) && Enabled(Value(), Starts(t))
      modifies this
      ensures Inv(Value()) && Value() == Next(old(Value()), Starts(t)) && ok == Passes(old(Value()), t)
    {
      InvNext(Value(), Starts(t));
      ok := AssertReservation(live[t].stamp);
      if ok { live := live[t := live[t].(running := true)]; } else { live := live - {t}; }
    }

    /** A mutation inside a buffered scope or outside any, refused or passed on. */
    method Mutation(t: Ticket, again: bool)
      requires Inv(Value()) && Enabled(Value(), Mutates(t, again))
      modifies this
      ensures Inv(Value()) && Value() == Next(old(Value()), Mutates(t, again))
    {
      InvNext(Value(), Mutates(t, again));
      var ok := !(scope.active && lost);
      if !again { ok := AssertReservation(live[t].stamp); }
      if !ok {
        live := live - {t};
      } else if scope.active {
        journal := journal + [Made(t, live[t].stamp, again)];
      }
    }

    method Finish(t: Ticket)
      requires Inv(Value()) && Enabled(Value(), Releases(t))
      modifies this
      ensures Inv(Value()) && Value() == Next(old(Value()), Releases(t))
    {
      InvNext(Value(), Releases(t));
      live := live - {t};
    }
  }
}
