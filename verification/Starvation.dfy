/** No tenant starves: over whole runs of the scheduler, while no new queue is opened, a tenant that
    could run is passed over a bounded number of times. */
module Starvation {
  import opened Admission

  /** What happens between two moments of a run: a change beside the rotation, or the scan admits the
      waiter it picks. Two kinds of run are considered: no new queue is opened, or callers are patient and
      no waiter leaves its queue unserved. */
  ghost predicate Moves(patient: bool, a: State, l: Limits, b: State) {
    Aside(patient, a, l, b) || Admits(a, l, b)
  }

  ghost predicate Aside(patient: bool, a: State, l: Limits, b: State) {
    if patient then Steady(a, l, b) else Calm(a, b)
  }

  /** The same queues, or one more behind them, for a tenant that had none. */
  ghost predicate Steady(a: State, l: Limits, b: State) {
    && b.last == a.last && |a.rows| <= |b.rows| <= l.maxQueued && SameTenants(a.rows, b.rows[..|a.rows|])
    && (|b.rows| == |a.rows| || (|b.rows| == |a.rows| + 1 && RowOf(a.rows, b.rows[|a.rows|].tenant) < 0))
  }

  ghost predicate Admits(a: State, l: Limits, b: State) {
    QueueOk(a, l) && PickFrom(a, l, 0).Some? && b == Admit(a, PickFrom(a, l, 0).value.0, PickFrom(a, l, 0).value.1)
  }

  ghost predicate Trace(patient: bool, states: seq<State>, l: Limits) {
    states != [] && forall k :: 0 <= k < |states| - 1 ==> Moves(patient, states[k], l, states[k + 1])
  }

  ghost predicate Leads(patient: bool, states: seq<State>, l: Limits, s: State, r: State) {
    Trace(patient, states, l) && states[0] == s && states[|states| - 1] == r && QueueOk(r, l)
  }

  /** Two stretches of a run, the second beginning where the first ends. */
  function Glued(a: seq<State>, b: seq<State>): seq<State>
    requires b != []
  {
    a + b[1..]
  }

  lemma Glue(patient: bool, a: seq<State>, b: seq<State>, l: Limits, s: State, m: State, r: State)
    requires Leads(patient, a, l, s, m) && Leads(patient, b, l, m, r)
    ensures Leads(patient, Glued(a, b), l, s, r)
  {
    hide Moves, QueueOk;
    var c := Glued(a, b);
    forall k | 0 <= k < |c| - 1 ensures Moves(patient, c[k], l, c[k + 1]) {
      if k < |a| - 1 {
        assert Moves(patient, a[k], l, a[k + 1]);
      } else {
        assert Moves(patient, b[k - |a| + 1], l, b[k - |a| + 2]);
        assert c[k] == b[k - |a| + 1];
      }
    }
  }

  lemma Before(patient: bool, s: State, b: seq<State>, l: Limits, m: State, r: State)
    requires Moves(patient, s, l, m) && Leads(patient, b, l, m, r)
    ensures Leads(patient, [s] + b, l, s, r)
  {
    hide Moves, QueueOk;
    var c := [s] + b;
    forall k | 0 <= k < |c| - 1 ensures Moves(patient, c[k], l, c[k + 1]) {
      if k > 0 { assert Moves(patient, b[k - 1], l, b[k]); }
    }
  }

  // ── The moments of each operation ──────────────────────────────────────────

  function DrainTrace(s: State, l: Limits): (c: seq<State>)
    ensures c != []
    decreases TotalLen(s.rows)
  {
    if s.closed || s.queued <= 0 then [s] else
    match PickFrom(s, l, 0)
    case None => [s]
    case Some(p) =>
      SpliceTotals(s.rows, p.0, p.1);
      [s] + DrainTrace(Admit(s, p.0, p.1), l)
  }

  function CancelTrace(s: State, l: Limits, ticket: Ticket): (c: seq<State>)
    ensures c != []
  {
    [s] + DrainTrace(Remove(s, ticket).(cancelled := s.cancelled + 1), l)
  }

  function JoinTrace(s: State, l: Limits, r: Request): (c: seq<State>)
    ensures c != []
  {
    var ticket := s.offered;
    var q := Enqueue(s, r.tenant, Waiter(ticket, r.key, r.bytes, r.shared));
    var x := Cancel(q, l, ticket);
    [s] + match r.callback
          case Quiet => DrainTrace(q, l)
          case Throws => CancelTrace(q, l, ticket)
          case Aborts => Glued(CancelTrace(q, l, ticket), DrainTrace(x, l))
          case AbortsAndThrows => Glued(CancelTrace(q, l, ticket), CancelTrace(x, l, ticket))
  }

  function AcquireTrace(s: State, l: Limits, r: Request): (c: seq<State>)
    ensures c != []
  {
    var o := s.(offered := s.offered + 1);
    if s.closed || r.aborted then [s, Acquire(s, l, r)] else
    var d := Drain(o, l);
    [s] + Glued(DrainTrace(o, l), if ReachesQueue(s, l, r) then JoinTrace(d, l, r) else [d, Acquire(s, l, r)])
  }

  /** Every moment of an event at which the scan looks for a waiter, and every one in between. */
  function NextTrace(s: State, l: Limits, e: Event): (c: seq<State>)
    ensures c != []
  {
    match e
    case Acquires(r) => AcquireTrace(s, l, r)
    case TimesOut(t) =>
      if Position(s.rows, t, 0).None? then [s] else [s] + DrainTrace(Remove(s, t).(refused := s.refused + 1), l)
    case AbortsWaiter(t) => if Position(s.rows, t, 0).None? then [s] else CancelTrace(s, l, t)
    case Releases(t) => if t in s.grants then [s] + DrainTrace(Release(s, t), l) else [s]
    case Wakes => DrainTrace(s, l)
    case Closes => [s, Close(s)]
  }

  // ── They are calm changes and admissions ───────────────────────────────────

  lemma AdmitKeepsQueue(s: State, l: Limits, i: nat, j: nat)
    requires QueueOk(s, l) && i < |s.rows| && j < |s.rows[i].waiters|
    ensures QueueOk(Admit(s, i, j), l)
  {
    RemoveQueue(s, l, i, j);
    SameQueue(RemoveAt(s, i, j), Admit(s, i, j), l);
  }

  lemma {:induction false} DrainLeads(patient: bool, s: State, l: Limits)
    requires QueueOk(s, l)
    ensures Leads(patient, DrainTrace(s, l), l, s, Drain(s, l))
    decreases TotalLen(s.rows)
  {
    if !s.closed && s.queued > 0 && PickFrom(s, l, 0).Some? {
      var p := PickFrom(s, l, 0).value;
      var a := Admit(s, p.0, p.1);
      SpliceTotals(s.rows, p.0, p.1);
      AdmitKeepsQueue(s, l, p.0, p.1);
      assert Admits(s, l, a);
      hide QueueOk, Admits, Calm, Runnable, TotalLen, Leads;
      DrainLeads(patient, a, l);
      Before(patient, s, DrainTrace(a, l), l, a, Drain(a, l));
    }
  }

  lemma RemoveAside(s: State, l: Limits, ticket: Ticket, r: State)
    requires QueueOk(s, l) && r == Remove(s, ticket).(cancelled := r.cancelled, refused := r.refused)
    ensures Aside(false, s, l, r) && QueueOk(r, l)
  {
    var at := Position(s.rows, ticket, 0);
    if at.Some? {
      RemoveQueue(s, l, at.value.0, at.value.1);
      SameQueue(RemoveAt(s, at.value.0, at.value.1), r, l);
    } else {
      SameQueue(s, r, l);
    }
    hide QueueOk;
  }

  lemma EnqueueAside(patient: bool, s: State, l: Limits, t: Tenant, w: Waiter)
    requires QueueOk(Enqueue(s, t, w), l) && (RowOf(s.rows, t) >= 0 || patient)
    ensures Aside(patient, s, l, Enqueue(s, t, w))
  {
    var q := Enqueue(s, t, w);
    FewRows(q, l);
    assert forall i :: 0 <= i < |s.rows| ==> q.rows[..|s.rows|][i].tenant == s.rows[i].tenant;
  }

  lemma {:induction false} RowsAreFewer(rows: seq<Row>)
    requires forall i :: 0 <= i < |rows| ==> rows[i].waiters != []
    ensures |rows| <= TotalLen(rows)
  {
    if rows != [] {
      assert rows[0].waiters != [];
      RowsAreFewer(rows[1..]);
    }
  }

  lemma FewRows(s: State, l: Limits)
    requires QueueOk(s, l)
    ensures |s.rows| <= l.maxQueued
  {
    assert forall i :: 0 <= i < |s.rows| ==> RowOk(s.rows[i], l);
    RowsAreFewer(s.rows);
  }

  lemma ThenDrains(patient: bool, s: State, l: Limits, r: State)
    requires Aside(patient, s, l, r) && QueueOk(r, l)
    ensures Leads(patient, [s] + DrainTrace(r, l), l, s, Drain(r, l))
  {
    hide QueueOk, Aside, Leads;
    DrainLeads(patient, r, l);
    assert Moves(patient, s, l, r);
    Before(patient, s, DrainTrace(r, l), l, r, Drain(r, l));
  }

  lemma CancelLeads(s: State, l: Limits, ticket: Ticket)
    requires QueueOk(s, l)
    ensures Leads(false, CancelTrace(s, l, ticket), l, s, Cancel(s, l, ticket))
  {
    hide QueueOk, Aside, Leads, Drain, DrainTrace, Remove;
    var r := Remove(s, ticket).(cancelled := s.cancelled + 1);
    RemoveAside(s, l, ticket, r);
    ThenDrains(false, s, l, r);
  }

  lemma EndsOk(patient: bool, c: seq<State>, l: Limits, s: State, r: State)
    requires Leads(patient, c, l, s, r)
    ensures QueueOk(r, l)
  {
  }

  /** The request opens a queue for a tenant that has none. */
  predicate OpensQueue(s: State, l: Limits, e: Event) {
    && e.Acquires? && ReachesQueue(s, l, e.request)
    && RowOf(Drain(s.(offered := s.offered + 1), l).rows, e.request.tenant) < 0
  }

  /** A waiter gives up, its time runs out, or its callback takes it away again. */
  predicate Leaves(s: State, l: Limits, e: Event) {
    match e
    case Acquires(r) => ReachesQueue(s, l, r) && r.callback != Quiet
    case TimesOut(t) => Position(s.rows, t, 0).Some?
    case AbortsWaiter(t) => Position(s.rows, t, 0).Some?
    case Closes => true
    case _ => false
  }

  predicate Disturbs(patient: bool, s: State, l: Limits, e: Event) {
    if patient then Leaves(s, l, e) else OpensQueue(s, l, e)
  }

  lemma CallbackLeads(patient: bool, q: State, l: Limits, ticket: Ticket, callback: Callback)
    requires QueueOk(q, l) && (patient ==> callback == Quiet)
    ensures match callback
            case Quiet => Leads(patient, DrainTrace(q, l), l, q, Drain(q, l))
            case Throws => Leads(patient, CancelTrace(q, l, ticket), l, q, Cancel(q, l, ticket))
            case Aborts =>
              var x := Cancel(q, l, ticket);
              Leads(patient, Glued(CancelTrace(q, l, ticket), DrainTrace(x, l)), l, q, Drain(x, l))
            case AbortsAndThrows =>
              var x := Cancel(q, l, ticket);
              Leads(patient, Glued(CancelTrace(q, l, ticket), CancelTrace(x, l, ticket)), l, q, Cancel(x, l, ticket))
  {
    hide QueueOk, Leads, Cancel, Drain, Glued;
    DrainLeads(patient, q, l);
    if !patient {
      var x := Cancel(q, l, ticket);
      CancelLeads(q, l, ticket);
      EndsOk(patient, CancelTrace(q, l, ticket), l, q, x);
      DrainLeads(patient, x, l);
      CancelLeads(x, l, ticket);
      Glue(patient, CancelTrace(q, l, ticket), DrainTrace(x, l), l, q, x, Drain(x, l));
      Glue(patient, CancelTrace(q, l, ticket), CancelTrace(x, l, ticket), l, q, x, Cancel(x, l, ticket));
    }
  }

  lemma JoinLeads(patient: bool, s: State, l: Limits, r: Request)
    requires QueueOk(s, l) && !s.closed && !Full(s, l, r.tenant, r.bytes)
    requires if patient then r.callback == Quiet else RowOf(s.rows, r.tenant) >= 0
    ensures Leads(patient, JoinTrace(s, l, r), l, s, Join(s, l, r))
  {
    var w := Waiter(s.offered, r.key, r.bytes, r.shared);
    var q := Enqueue(s, r.tenant, w);
    EnqueueQueue(s, l, r.tenant, w);
    EnqueueAside(patient, s, l, r.tenant, w);
    hide QueueOk, Full, Enqueue, Cancel, Drain, Aside, RowOf, Leads;
    assert Moves(patient, s, l, q);
    CallbackLeads(patient, q, l, s.offered, r.callback);
    Before(patient, s, JoinTrace(s, l, r)[1..], l, q, Join(s, l, r));
    assert JoinTrace(s, l, r) == [s] + JoinTrace(s, l, r)[1..];
  }

  lemma {:induction false} StaysOpen(s: State, l: Limits)
    ensures Drain(s, l).closed == s.closed
    decreases TotalLen(s.rows)
  {
    hide Runnable;
    if !s.closed && s.queued > 0 && PickFrom(s, l, 0).Some? {
      var p := PickFrom(s, l, 0).value;
      SpliceTotals(s.rows, p.0, p.1);
      StaysOpen(Admit(s, p.0, p.1), l);
    }
  }

  lemma SameRotation(patient: bool, a: State, b: State, l: Limits)
    requires QueueOk(a, l) && b.rows == a.rows && b.last == a.last
    requires b.queued == a.queued && b.queuedBytes == a.queuedBytes && b.closed == a.closed
    ensures Aside(patient, a, l, b) && QueueOk(b, l) && Leads(patient, [a, b], l, a, b)
  {
    FewRows(a, l);
    assert b.rows[..|a.rows|] == a.rows;
    assert Aside(patient, a, l, b);
    SameQueue(a, b, l);
  }

  /** After the first scan the request is admitted, refused, or joins a queue that exists. */
  lemma RequestLeads(patient: bool, s: State, l: Limits, r: Request, d: State)
    requires !s.closed && !r.aborted && d == Drain(s.(offered := s.offered + 1), l) && QueueOk(d, l) && !d.closed
    requires !Disturbs(patient, s, l, Acquires(r))
    ensures Leads(patient, if ReachesQueue(s, l, r) then JoinTrace(d, l, r) else [d, Acquire(s, l, r)], l, d,
            Acquire(s, l, r))
  {
    hide Drain, Full, Join, JoinTrace, Leads, RowOf;
    if ReachesQueue(s, l, r) {
      hide QueueOk;
      JoinLeads(patient, d, l, r);
    } else {
      SameRotation(patient, d, Acquire(s, l, r), l);
    }
  }

  lemma AcquireLeads(patient: bool, s: State, l: Limits, r: Request)
    requires QueueOk(s, l) && !Disturbs(patient, s, l, Acquires(r))
    ensures Leads(patient, AcquireTrace(s, l, r), l, s, Acquire(s, l, r))
  {
    hide QueueOk, Aside, Leads, Disturbs, JoinTrace, Drain, Glued, DrainTrace, ReachesQueue, Join, Full, Immediate;
    if s.closed || r.aborted {
      SameRotation(patient, s, Acquire(s, l, r), l);
    } else {
      hide Acquire;
      DrainThenRequest(patient, s, l, r);
    }
  }

  lemma DrainThenRequest(patient: bool, s: State, l: Limits, r: Request)
    requires QueueOk(s, l) && !Disturbs(patient, s, l, Acquires(r)) && !s.closed && !r.aborted
    ensures Leads(patient, AcquireTrace(s, l, r), l, s, Acquire(s, l, r))
  {
    hide QueueOk, Aside, Leads, Disturbs, Acquire, JoinTrace, Drain, Glued, DrainTrace, ReachesQueue;
    var o := s.(offered := s.offered + 1);
    SameRotation(patient, s, o, l);
    var d := Drain(o, l);
    DrainLeads(patient, o, l);
    EndsOk(patient, DrainTrace(o, l), l, o, d);
    StaysOpen(o, l);
    RequestLeads(patient, s, l, r, d);
    var rest := if ReachesQueue(s, l, r) then JoinTrace(d, l, r) else [d, Acquire(s, l, r)];
    Glue(patient, DrainTrace(o, l), rest, l, o, d, Acquire(s, l, r));
    assert Moves(patient, s, l, o);
    Before(patient, s, Glued(DrainTrace(o, l), rest), l, o, Acquire(s, l, r));
  }

  lemma Stays(patient: bool, s: State, l: Limits)
    requires QueueOk(s, l)
    ensures Leads(patient, [s], l, s, s)
  {
  }

  lemma ReleaseLeads(patient: bool, s: State, l: Limits, t: Ticket)
    requires QueueOk(s, l) && t in s.grants
    ensures Leads(patient, [s] + DrainTrace(Release(s, t), l), l, s, Drain(Release(s, t), l))
  {
    SameRotation(patient, s, Release(s, t), l);
    hide QueueOk, Aside, Leads;
    ThenDrains(patient, s, l, Release(s, t));
  }

  lemma TimeOutLeads(s: State, l: Limits, t: Ticket)
    requires QueueOk(s, l)
    ensures var r := Remove(s, t).(refused := s.refused + 1); Leads(false, [s] + DrainTrace(r, l), l, s, Drain(r, l))
  {
    hide QueueOk, Aside, Leads, Drain, DrainTrace, Remove;
    var r := Remove(s, t).(refused := s.refused + 1);
    RemoveAside(s, l, t, r);
    ThenDrains(false, s, l, r);
  }

  lemma CloseLeads(s: State, l: Limits)
    requires QueueOk(s, l)
    ensures Leads(false, [s, Close(s)], l, s, Close(s))
  {
    assert Calm(s, Close(s));
    assert Moves(false, s, l, Close(s));
  }

  lemma TimesOutLeads(patient: bool, s: State, l: Limits, t: Ticket)
    requires QueueOk(s, l) && !Disturbs(patient, s, l, TimesOut(t))
    ensures Leads(patient, NextTrace(s, l, TimesOut(t)), l, s, Next(s, l, TimesOut(t)))
  {
    hide QueueOk, Leads, Drain, DrainTrace, Remove, Position;
    if Position(s.rows, t, 0).None? { Stays(patient, s, l); } else { TimeOutLeads(s, l, t); }
  }

  lemma AbortsLeads(patient: bool, s: State, l: Limits, t: Ticket)
    requires QueueOk(s, l) && !Disturbs(patient, s, l, AbortsWaiter(t))
    ensures Leads(patient, NextTrace(s, l, AbortsWaiter(t)), l, s, Next(s, l, AbortsWaiter(t)))
  {
    hide QueueOk, Leads, Cancel, CancelTrace, Position;
    if Position(s.rows, t, 0).None? { Stays(patient, s, l); } else { CancelLeads(s, l, t); }
  }

  lemma ReleasesLeads(patient: bool, s: State, l: Limits, t: Ticket)
    requires QueueOk(s, l)
    ensures Leads(patient, NextTrace(s, l, Releases(t)), l, s, Next(s, l, Releases(t)))
  {
    hide QueueOk, Leads, Drain, DrainTrace, Release;
    if t in s.grants { ReleaseLeads(patient, s, l, t); } else { Stays(patient, s, l); }
  }

  lemma OtherLeads(patient: bool, s: State, l: Limits, e: Event)
    requires QueueOk(s, l) && !Disturbs(patient, s, l, e) && (e.Acquires? || e.Wakes? || e.Closes?)
    ensures Leads(patient, NextTrace(s, l, e), l, s, Next(s, l, e))
  {
    hide QueueOk, Leads, ReachesQueue, Drain, DrainTrace, AcquireTrace, Acquire, Close;
    match e
    case Acquires(r) => AcquireLeads(patient, s, l, r);
    case Wakes => DrainLeads(patient, s, l);
    case Closes => CloseLeads(s, l);
  }

  /** Every event that opens no queue is made of calm changes and admissions by the scan. */
  lemma NextLeads(patient: bool, s: State, l: Limits, e: Event)
    requires QueueOk(s, l) && !Disturbs(patient, s, l, e)
    ensures Leads(patient, NextTrace(s, l, e), l, s, Next(s, l, e))
  {
    hide QueueOk, Leads, Disturbs, Next, NextTrace;
    match e
    case TimesOut(t) => TimesOutLeads(patient, s, l, t);
    case AbortsWaiter(t) => AbortsLeads(patient, s, l, t);
    case Releases(t) => ReleasesLeads(patient, s, l, t);
    case _ => OtherLeads(patient, s, l, e);
  }

  // ── Whole runs ─────────────────────────────────────────────────────────────

  function RunFrom(s: State, l: Limits, events: seq<Event>): State {
    if events == [] then s else Next(RunFrom(s, l, events[..|events| - 1]), l, events[|events| - 1])
  }

  function RunTrace(s: State, l: Limits, events: seq<Event>): (c: seq<State>)
    ensures c != []
  {
    if events == [] then [s] else
    var n := |events| - 1;
    Glued(RunTrace(s, l, events[..n]), NextTrace(RunFrom(s, l, events[..n]), l, events[n]))
  }

  ghost predicate Undisturbed(patient: bool, s: State, l: Limits, events: seq<Event>) {
    forall k :: 0 <= k < |events| ==> !Disturbs(patient, RunFrom(s, l, events[..k]), l, events[k])
  }

  lemma {:induction false} RunLeads(patient: bool, s: State, l: Limits, events: seq<Event>)
    requires QueueOk(s, l) && Undisturbed(patient, s, l, events)
    ensures Leads(patient, RunTrace(s, l, events), l, s, RunFrom(s, l, events))
    decreases |events|
  {
    if events == [] {
      Stays(patient, s, l);
    } else {
      var n := |events| - 1;
      var init := events[..n];
      forall k | 0 <= k < n ensures !Disturbs(patient, RunFrom(s, l, init[..k]), l, init[k]) {
        assert init[..k] == events[..k] && !Disturbs(patient, RunFrom(s, l, events[..k]), l, events[k]);
      }
      var m := RunFrom(s, l, init);
      hide QueueOk, Next, Disturbs, Leads, NextTrace, Glued;
      RunLeads(patient, s, l, init);
      EndsOk(patient, RunTrace(s, l, init), l, s, m);
      NextLeads(patient, m, l, events[n]);
      Glue(patient, RunTrace(s, l, init), NextTrace(m, l, events[n]), l, s, m, Next(m, l, events[n]));
    }
  }

  /** At this moment the tenant has a waiter that could run. */
  ghost predicate CouldRun(s: State, l: Limits, t: Tenant) {
    RowOf(s.rows, t) >= 0 && exists j ::
        0 <= j < |s.rows[RowOf(s.rows, t)].waiters| && Runnable(s, l, RowOf(s.rows, t), j)
  }

  /** Somebody else is admitted although the tenant could run. */
  ghost predicate Passes(a: State, l: Limits, b: State, t: Tenant) {
    Admits(a, l, b) && CouldRun(a, l, t) && PickFrom(a, l, 0).value.0 != RowOf(a.rows, t)
  }

  ghost function PassCount(states: seq<State>, l: Limits, t: Tenant): nat {
    if |states| < 2 then 0 else
    var n := |states| - 1;
    PassCount(states[..n], l, t) + if Passes(states[n - 1], l, states[n], t) then 1 else 0
  }

  /** The tenant keeps its queue, and could run whenever the scan admitted anybody. */
  ghost predicate KeepsAsking(patient: bool, states: seq<State>, l: Limits, t: Tenant) {
    && (forall k :: 0 <= k < |states| ==> HasQueue(states[k], t))
    && (forall k :: 0 <= k < |states| - 1 ==>
          Aside(patient, states[k], l, states[k + 1]) || Passes(states[k], l, states[k + 1], t))
  }

  predicate HasQueue(s: State, t: Tenant) {
    RowOf(s.rows, t) >= 0
  }

  // ── What a bypass uses up ──────────────────────────────────────────────────

  /** Queues behind the tenant's that the rotation will not come to before the tenant's own: `i` is the
      tenant's row of `n`, `previous` the one served last or -1. */
  function Spent(previous: int, n: nat, i: nat): int {
    if previous >= i then previous - i else n - 1 - i
  }

  /** How far the rotation is from the tenant's queue, when it has come round. */
  function Ahead(previous: int, i: nat, m: nat): int {
    if previous >= i then m + 1 else i - 1 - previous
  }

  /** The number of queues in front of the tenant's first, then how many queues behind it there could
      still be that come before it, then the distance. */
  function Wait(previous: int, n: nat, i: nat, m: nat): int {
    Weight(i, m - Spent(previous, n, i), Ahead(previous, i, m), m)
  }

  function Weight(i: int, u: int, p: int, m: nat): int {
    (i * (m + 1) + u) * (m + 2) + p
  }

  predicate Place(previous: int, n: nat, i: nat, m: nat) {
    i < n <= m && -1 <= previous < n
  }

  lemma Scale(a: int, b: int, k: nat)
    requires a <= b
    ensures a * k <= b * k
  {
  }

  /** The weight orders triples lexicographically. */
  lemma Lexicographic(i: int, u: int, p: int, i': int, u': int, p': int, m: nat)
    requires 0 <= u <= m && 0 <= u' <= m && 0 <= p <= m + 1 && 0 <= p' <= m + 1
    requires i' < i || (i' == i && (u' < u || (u' == u && p' < p)))
    ensures Weight(i', u', p', m) < Weight(i, u, p, m)
  {
    var x, x' := i * (m + 1) + u, i' * (m + 1) + u';
    if i' < i {
      Scale(i' + 1, i, m + 1);
      assert x' < x by { assert (i' + 1) * (m + 1) == i' * (m + 1) + m + 1; }
    }
    if x' < x { Digit(x, p, x', p', m + 2); }
  }

  lemma Digit(x: int, p: int, x': int, p': int, k: nat)
    requires x' < x && 0 <= p && p' < k
    ensures x' * k + p' < x * k + p
  {
    Scale(x' + 1, x, k);
    assert (x' + 1) * k == x' * k + k;
  }

  /** Another row is served, and is gone or is the last one served. */
  lemma ServedOther(previous: int, n: nat, i: nat, m: nat, at: nat, gone: bool)
    requires Place(previous, n, i, m) && at < n && at != i
    requires (at > previous || (at < i && i <= previous)) && (at > i ==> previous >= i)
    ensures var k, n', previous' :=
              if gone && at < i then i - 1 else i, n - (if gone then 1 else 0), if gone then -1 else at;
            Place(previous', n', k, m) && 0 <= Wait(previous', n', k, m) < Wait(previous, n, i, m)
  {
    var k, n', previous' :=
      if gone && at < i then i - 1 else i, n - (if gone then 1 else 0), if gone then -1 else at;
    hide Weight;
    Lexicographic(i, m - Spent(previous, n, i), Ahead(previous, i, m), k, m - Spent(previous', n', k),
        Ahead(previous', k, m), m);
    Least(k, m - Spent(previous', n', k), Ahead(previous', k, m), m);
  }

  lemma Least(i: nat, u: nat, p: nat, m: nat)
    ensures Weight(i, u, p, m) >= 0
  {
  }

  /** A queue is opened behind the others, perhaps for the tenant served last. */
  lemma OpenedBehind(previous: int, n: nat, i: nat, m: nat, previous': int)
    requires Place(previous, n, i, m) && n < m && (previous' == previous || (previous == -1 && previous' == n))
    ensures Wait(previous', n + 1, i, m) <= Wait(previous, n, i, m)
  {
    if previous' != previous || previous < i {
      hide Weight;
      Lexicographic(i, m - Spent(previous, n, i), Ahead(previous, i, m), i, m - Spent(previous', n + 1, i),
          Ahead(previous', i, m), m);
    }
  }

  /** The scan went past a queue to another: one in front of the tenant's, or one that it reached first. */
  lemma PickedBefore(a: State, l: Limits, b: State, t: Tenant)
    requires Passes(a, l, b, t)
    ensures var at, i := PickFrom(a, l, 0).value.0, RowOf(a.rows, t);
            at != i && (at > Previous(a) || (at < i && i <= Previous(a))) && (at > i ==> Previous(a) >= i)
  {
    var i := RowOf(a.rows, t);
    var j :| 0 <= j < |a.rows[i].waiters| && Runnable(a, l, i, j);
    hide Runnable, QueueOk, RowOf;
    PickIsFirst(a, l, 0, i, j);
  }

  lemma ServedGone(a: State, l: Limits, at: nat, i: nat)
    requires QueueOk(a, l) && at < |a.rows| && |a.rows[at].waiters| == 1 && i < |a.rows| && i != at
    ensures var b := Admit(a, at, 0);
            && |b.rows| == |a.rows| - 1 && RowOf(b.rows, a.rows[i].tenant) == (if at < i then i - 1 else i)
            && Previous(b) == -1
  {
    var b := Admit(a, at, 0);
    RemoveQueue(a, l, at, 0);
    hide TotalLen, TotalBytes, RowOk, Reserve, RowOf;
    assert b.rows == Splice(a.rows, at);
    RowOfIs(b.rows, if at < i then i - 1 else i);
    assert RowOf(b.rows, a.rows[at].tenant) < 0;
  }

  lemma ServedStays(a: State, l: Limits, at: nat, j: nat, i: nat)
    requires QueueOk(a, l) && at < |a.rows| && j < |a.rows[at].waiters| && |a.rows[at].waiters| > 1
    requires i < |a.rows| && i != at
    ensures var b := Admit(a, at, j);
            |b.rows| == |a.rows| && RowOf(b.rows, a.rows[i].tenant) == i && Previous(b) == at
  {
    var b := Admit(a, at, j);
    RemoveQueue(a, l, at, j);
    hide TotalLen, TotalBytes, RowOk, Reserve, RowOf;
    assert b.rows[i] == a.rows[i] && b.rows[at].tenant == a.rows[at].tenant;
    RowOfIs(b.rows, i);
    RowOfIs(b.rows, at);
  }

  /** Where the tenant and the rotation are once row `at` was served. */
  lemma Served(a: State, l: Limits, at: nat, j: nat, i: nat)
    requires QueueOk(a, l) && at < |a.rows| && j < |a.rows[at].waiters| && i < |a.rows| && i != at
    ensures var b := Admit(a, at, j);
            var gone := |a.rows[at].waiters| == 1;
            && |b.rows| == |a.rows| - (if gone then 1 else 0)
            && RowOf(b.rows, a.rows[i].tenant) == (if gone && at < i then i - 1 else i)
            && Previous(b) == if gone then -1 else at
  {
    hide QueueOk, Admit, RowOf, Previous;
    if |a.rows[at].waiters| == 1 { ServedGone(a, l, at, i); } else { ServedStays(a, l, at, j, i); }
  }

  lemma PassShortensWait(a: State, l: Limits, b: State, t: Tenant)
    requires Passes(a, l, b, t) && HasQueue(b, t)
    ensures WaitOf(b, l, t) < WaitOf(a, l, t)
  {
    var i, at, j := RowOf(a.rows, t), PickFrom(a, l, 0).value.0, PickFrom(a, l, 0).value.1;
    PickedBefore(a, l, b, t);
    FewRows(a, l);
    Served(a, l, at, j, i);
    hide RowOf, Previous, PickFrom, QueueOk, Wait, Admit;
    ServedOther(Previous(a), |a.rows|, i, l.maxQueued, at, |a.rows[at].waiters| == 1);
  }

  function WaitOf(s: State, l: Limits, t: Tenant): int {
    var i := RowOf(s.rows, t);
    if i >= 0 then Wait(Previous(s), |s.rows|, i, l.maxQueued) else 0
  }

  lemma {:induction false} FoundInFront(a: seq<Row>, b: seq<Row>, t: Tenant)
    requires |a| <= |b| && SameTenants(a, b[..|a|])
    ensures RowOf(a, t) >= 0 ==> RowOf(b, t) == RowOf(a, t)
    ensures |a| == |b| ==> RowOf(b, t) == RowOf(a, t)
    ensures RowOf(a, t) < 0 && |b| == |a| + 1 ==> RowOf(b, t) == if b[|a|].tenant == t then |a| else -1
  {
    if a != [] {
      assert b[..|a|][0].tenant == a[0].tenant;
      assert b[1..][..|a| - 1] == b[..|a|][1..];
      FoundInFront(a[1..], b[1..], t);
    }
  }

  lemma SteadyKeepsWait(a: State, l: Limits, b: State, t: Tenant)
    requires Steady(a, l, b) && HasQueue(a, t)
    ensures WaitOf(b, l, t) <= WaitOf(a, l, t)
  {
    var i, m := RowOf(a.rows, t), l.maxQueued;
    FoundInFront(a.rows, b.rows, t);
    if a.last.Some? { FoundInFront(a.rows, b.rows, a.last.value); }
    assert Previous(b) == Previous(a) || (Previous(a) == -1 && Previous(b) == |a.rows|);
    hide RowOf, Previous, Wait;
    if |b.rows| > |a.rows| { OpenedBehind(Previous(a), |a.rows|, i, m, Previous(b)); }
  }

  // ── The bound ──────────────────────────────────────────────────────────────

  function RankOf(patient: bool, s: State, l: Limits, t: Tenant): int {
    var i := RowOf(s.rows, t);
    if i < 0 then 0 else if patient then WaitOf(s, l, t) else Rank(s, i)
  }

  lemma PassDropsRank(patient: bool, a: State, l: Limits, b: State, t: Tenant)
    requires Passes(a, l, b, t) && HasQueue(b, t)
    ensures RankOf(patient, b, l, t) < RankOf(patient, a, l, t)
  {
    if patient {
      PassShortensWait(a, l, b, t);
    } else {
      var i := RowOf(a.rows, t);
      var j :| 0 <= j < |a.rows[i].waiters| && Runnable(a, l, i, j);
      PassedOverRankDrops(a, l, i, j);
    }
  }

  lemma AsideKeepsRank(patient: bool, a: State, l: Limits, b: State, t: Tenant)
    requires Aside(patient, a, l, b) && HasQueue(a, t) && HasQueue(b, t)
    ensures RankOf(patient, b, l, t) <= RankOf(patient, a, l, t)
  {
    if patient { SteadyKeepsWait(a, l, b, t); } else { CalmKeepsRank(a, b, t); }
  }

  lemma AskedBefore(patient: bool, states: seq<State>, l: Limits, t: Tenant)
    requires |states| > 1 && KeepsAsking(patient, states, l, t)
    ensures KeepsAsking(patient, states[..|states| - 1], l, t)
    ensures var n := |states| - 1;
            && HasQueue(states[n - 1], t) && HasQueue(states[n], t)
            && (Aside(patient, states[n - 1], l, states[n]) || Passes(states[n - 1], l, states[n], t))
  {
    hide Passes, Aside, RowOf;
    var init := states[..|states| - 1];
    assert forall k :: 0 <= k < |init| ==> init[k] == states[k];
  }

  lemma {:induction false} RankPays(patient: bool, states: seq<State>, l: Limits, t: Tenant)
    requires states != [] && KeepsAsking(patient, states, l, t)
    ensures PassCount(states, l, t) + RankOf(patient, states[|states| - 1], l, t) <= RankOf(patient, states[0], l, t)
    decreases |states|
  {
    hide Passes, Aside, RankOf, KeepsAsking, HasQueue;
    if |states| > 1 {
      var n := |states| - 1;
      var a, b := states[n - 1], states[n];
      AskedBefore(patient, states, l, t);
      RankPays(patient, states[..n], l, t);
      if Passes(a, l, b, t) { PassDropsRank(patient, a, l, b, t); } else { AsideKeepsRank(patient, a, l, b, t); }
    }
  }

  lemma RankNotNegative(patient: bool, s: State, l: Limits, t: Tenant)
    requires QueueOk(s, l)
    ensures RankOf(patient, s, l, t) >= 0
  {
    var i, m := RowOf(s.rows, t), l.maxQueued;
    FewRows(s, l);
    hide RowOf, Previous, QueueOk, Weight;
    if i >= 0 && patient { Least(i, m - Spent(Previous(s), |s.rows|, i), Ahead(Previous(s), i, m), m); }
  }

  lemma RankBound(s: State, l: Limits, t: Tenant)
    requires HasQueue(s, t)
    ensures RankOf(false, s, l, t) < |s.rows| * |s.rows| + |s.rows|
  {
  }

  lemma WaitBound(s: State, l: Limits, t: Tenant)
    requires HasQueue(s, t) && QueueOk(s, l)
    ensures var m := l.maxQueued; RankOf(true, s, l, t) < m * (m + 1) * (m + 2)
  {
    var i, m := RowOf(s.rows, t), l.maxQueued;
    FewRows(s, l);
    hide RowOf, Previous, QueueOk, Weight;
    Lexicographic(m, 0, 0, i, m - Spent(Previous(s), |s.rows|, i), Ahead(Previous(s), i, m), m);
    assert Weight(m, 0, 0, m) == m * (m + 1) * (m + 2) by { WeightOf(m); }
  }

  lemma WeightOf(m: nat)
    ensures Weight(m, 0, 0, m) == m * (m + 1) * (m + 2)
  {
  }

  /** In every run that opens no queue: a tenant that could run whenever somebody was admitted is passed
      over fewer than n * n + n times, for n queues at the start. */
  lemma BoundedBypass(s: State, l: Limits, events: seq<Event>, t: Tenant)
    requires QueueOk(s, l) && Undisturbed(false, s, l, events) && KeepsAsking(false, RunTrace(s, l, events), l, t)
    ensures Leads(false, RunTrace(s, l, events), l, s, RunFrom(s, l, events))
    ensures PassCount(RunTrace(s, l, events), l, t) < |s.rows| * |s.rows| + |s.rows|
  {
    hide QueueOk, RankOf, RunFrom, RunTrace, Undisturbed, Passes, Aside, Moves;
    RunLeads(false, s, l, events);
    RankNotNegative(false, RunFrom(s, l, events), l, t);
    RankBound(s, l, t);
    RankPays(false, RunTrace(s, l, events), l, t);
  }

  /** In every run in which no waiter leaves its queue unserved, however many queues are opened: such a
      tenant is passed over fewer than m * (m + 1) * (m + 2) times, for room for m waiters. */
  lemma BoundedWhenPatient(s: State, l: Limits, events: seq<Event>, t: Tenant)
    requires QueueOk(s, l) && Undisturbed(true, s, l, events) && KeepsAsking(true, RunTrace(s, l, events), l, t)
    ensures Leads(true, RunTrace(s, l, events), l, s, RunFrom(s, l, events))
    ensures var m := l.maxQueued; PassCount(RunTrace(s, l, events), l, t) < m * (m + 1) * (m + 2)
  {
    hide QueueOk, RankOf, RunFrom, RunTrace, Undisturbed, Passes, Aside, Moves;
    RunLeads(true, s, l, events);
    RankNotNegative(true, RunFrom(s, l, events), l, t);
    WaitBound(s, l, t);
    RankPays(true, RunTrace(s, l, events), l, t);
  }
}
