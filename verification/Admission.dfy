/** The multi-tenant scheduler: per-tenant queues served in rotation, shared and exclusive use of keys,
    and caps on everything. The plain capacity rule (no external reservation) is modelled. */
module Admission {
  import opened Options

  type Ticket = nat
  type Tenant = string
  type KeyName = string

  datatype Limits = Limits(capacity: nat, perTenant: nat, maxQueued: nat, maxQueuedPerTenant: nat,
                           maxBytes: nat, maxBytesPerTenant: nat)
  datatype Waiter = Waiter(ticket: Ticket, key: KeyName, bytes: nat, shared: bool)

  /** One entry of the queue map, in insertion order. */
  datatype Row = Row(tenant: Tenant, waiters: seq<Waiter>)
  datatype Use = Use(count: nat, shared: bool)

  /** A reservation whose release has not been called. */
  datatype Grant = Grant(tenant: Tenant, key: KeyName, shared: bool)

  datatype State = State(
    rows: seq<Row>, keys: map<KeyName, Use>, tenants: map<Tenant, nat>, grants: map<Ticket, Grant>,
    active: nat, queued: int, queuedBytes: int, closed: bool, last: Option<Tenant>,
    offered: nat, admitted: nat, refused: nat, completed: nat, cancelled: nat)

  // ── Reserving ──────────────────────────────────────────────────────────────

  function TenantActive(s: State, t: Tenant): nat {
    if t in s.tenants then s.tenants[t] else 0
  }

  predicate Admissible(s: State, l: Limits, t: Tenant, key: KeyName, shared: bool) {
    && TenantActive(s, t) < l.perTenant
    && (key in s.keys ==> shared && s.keys[key].shared)
    && s.active < l.capacity
  }

  function Reserve(s: State, ticket: Ticket, t: Tenant, key: KeyName, shared: bool): State {
    s.(active := s.active + 1, admitted := s.admitted + 1,
       tenants := s.tenants[t := TenantActive(s, t) + 1],
       keys := s.keys[key := Use((if key in s.keys then s.keys[key].count else 0) + 1, shared)],
       grants := s.grants[ticket := Grant(t, key, shared)])
  }

  /** The release closure; a second call does nothing. */
  function Release(s: State, ticket: Ticket): State {
    if ticket !in s.grants then s else
    var g := s.grants[ticket];
    s.(active := if s.active > 0 then s.active - 1 else 0, completed := s.completed + 1,
       tenants := if TenantActive(s, g.tenant) > 1 then s.tenants[g.tenant := TenantActive(s, g.tenant) - 1]
                  else s.tenants - {g.tenant},
       keys := if g.key in s.keys && s.keys[g.key].count > 1
               then s.keys[g.key := s.keys[g.key].(count := s.keys[g.key].count - 1)] else s.keys - {g.key},
       grants := s.grants - {ticket})
  }

  // ── Queues ─────────────────────────────────────────────────────────────────

  function SumBytes(ws: seq<Waiter>): nat {
    if ws == [] then 0 else ws[0].bytes + SumBytes(ws[1..])
  }

  function TotalLen(rows: seq<Row>): nat {
    if rows == [] then 0 else |rows[0].waiters| + TotalLen(rows[1..])
  }

  function TotalBytes(rows: seq<Row>): nat {
    if rows == [] then 0 else SumBytes(rows[0].waiters) + TotalBytes(rows[1..])
  }

  function RowOf(rows: seq<Row>, t: Tenant): (i: int)
    ensures -1 <= i < |rows| && (i >= 0 ==> rows[i].tenant == t)
            && (i < 0 ==> forall j :: 0 <= j < |rows| ==> rows[j].tenant != t)
  {
    if rows == [] then -1 else if rows[0].tenant == t then 0
    else var i := RowOf(rows[1..], t);
      assert forall j :: 1 <= j < |rows| ==> rows[j] == rows[1..][j - 1];
      if i < 0 then -1 else i + 1
  }

  function Splice<T>(s: seq<T>, i: nat): seq<T>
    requires i < |s|
  {
    s[..i] + s[i + 1..]
  }

  function RemoveAt(s: State, i: nat, j: nat): State
    requires i < |s.rows| && j < |s.rows[i].waiters|
  {
    var ws := Splice(s.rows[i].waiters, j);
    s.(rows := if ws == [] then Splice(s.rows, i) else s.rows[i := s.rows[i].(waiters := ws)],
       queued := s.queued - 1, queuedBytes := s.queuedBytes - s.rows[i].waiters[j].bytes)
  }

  /** Where a waiter stands, if it still does. */
  function Position(rows: seq<Row>, ticket: Ticket, from: nat): (r: Option<(nat, nat)>)
    requires from <= |rows|
    ensures r.Some? ==>
            r.value.0 < |rows| && r.value.1 < |rows[r.value.0].waiters|
                && rows[r.value.0].waiters[r.value.1].ticket == ticket
    decreases |rows| - from
  {
    if from == |rows| then None else
    match IndexIn(rows[from].waiters, ticket, 0)
    case Some(j) => Some((from, j))
    case None => Position(rows, ticket, from + 1)
  }

  function IndexIn(ws: seq<Waiter>, ticket: Ticket, from: nat): (r: Option<nat>)
    requires from <= |ws|
    ensures r.Some? ==> r.value < |ws| && ws[r.value].ticket == ticket
    decreases |ws| - from
  {
    if from == |ws| then None else if ws[from].ticket == ticket then Some(from) else IndexIn(ws, ticket, from + 1)
  }

  // ── The rotation ───────────────────────────────────────────────────────────

  /** A queued writer of the same key stands in front. */
  predicate BehindWriter(ws: seq<Waiter>, j: nat)
    requires j < |ws|
  {
    exists k :: 0 <= k < j && !ws[k].shared && ws[k].key == ws[j].key
  }

  predicate Runnable(s: State, l: Limits, i: nat, j: nat)
    requires i < |s.rows| && j < |s.rows[i].waiters|
  {
    && !BehindWriter(s.rows[i].waiters, j)
    && Admissible(s, l, s.rows[i].tenant, s.rows[i].waiters[j].key, s.rows[i].waiters[j].shared)
  }

  /** The first waiter of a row that may run now. */
  function FirstRunnable(s: State, l: Limits, i: nat, from: nat): (r: Option<nat>)
    requires i < |s.rows| && from <= |s.rows[i].waiters|
    ensures r.Some? ==> from <= r.value < |s.rows[i].waiters| && Runnable(s, l, i, r.value)
    ensures forall j :: from <= j < (if r.Some? then r.value else |s.rows[i].waiters|) ==> !Runnable(s, l, i, j)
    decreases |s.rows[i].waiters| - from
  {
    if from == |s.rows[i].waiters| then None
    else if Runnable(s, l, i, from) then Some(from)
    else FirstRunnable(s, l, i, from + 1)
  }

  function Previous(s: State): (p: int)
    ensures -1 <= p < |s.rows|
  {
    if s.last.None? then -1 else RowOf(s.rows, s.last.value)
  }

  /** The row visited `offset` places after the one served last. */
  function Visited(s: State, offset: nat): (i: nat)
    requires offset < |s.rows|
    ensures i < |s.rows|
  {
    var at := Previous(s) + 1 + offset;
    if at < |s.rows| then at else at - |s.rows|
  }

  function PickFrom(s: State, l: Limits, offset: nat): (r: Option<(nat, nat)>)
    requires offset <= |s.rows|
    ensures r.Some? ==>
            r.value.0 < |s.rows| && r.value.1 < |s.rows[r.value.0].waiters| && Runnable(s, l, r.value.0, r.value.1)
    decreases |s.rows| - offset
  {
    if offset == |s.rows| then None else
    match FirstRunnable(s, l, Visited(s, offset), 0)
    case Some(j) => Some((Visited(s, offset), j))
    case None => PickFrom(s, l, offset + 1)
  }

  function Admit(s: State, i: nat, j: nat): State
    requires i < |s.rows| && j < |s.rows[i].waiters|
  {
    var w, t := s.rows[i].waiters[j], s.rows[i].tenant;
    RemoveAt(Reserve(s, w.ticket, t, w.key, w.shared), i, j).(last := Some(t))
  }

  lemma {:induction false} SpliceTotals(rows: seq<Row>, i: nat, j: nat)
    requires i < |rows| && j < |rows[i].waiters|
    ensures var ws := Splice(rows[i].waiters, j);
            var r := if ws == [] then Splice(rows, i) else rows[i := rows[i].(waiters := ws)];
            TotalLen(r) == TotalLen(rows) - 1 && TotalBytes(r) == TotalBytes(rows) - rows[i].waiters[j].bytes
    decreases i
  {
    var ws := Splice(rows[i].waiters, j);
    SpliceBytes(rows[i].waiters, j);
    if i == 0 {
      if ws == [] { assert Splice(rows, 0) == rows[1..]; assert |rows[0].waiters| == 1; }
      else { assert rows[0 := rows[0].(waiters := ws)][1..] == rows[1..]; }
    } else {
      SpliceTotals(rows[1..], i - 1, j);
      if ws == [] { assert Splice(rows, i) == [rows[0]] + Splice(rows[1..], i - 1); }
      else { assert rows[i := rows[i].(waiters := ws)][1..] == rows[1..][i - 1 := rows[i].(waiters := ws)]; }
    }
  }

  lemma {:induction false} SpliceBytes(ws: seq<Waiter>, j: nat)
    requires j < |ws|
    ensures SumBytes(Splice(ws, j)) == SumBytes(ws) - ws[j].bytes
  {
    if j == 0 { assert Splice(ws, 0) == ws[1..]; }
    else {
      SpliceBytes(ws[1..], j - 1);
      assert Splice(ws, j) == [ws[0]] + Splice(ws[1..], j - 1);
    }
  }

  function Drain(s: State, l: Limits): State
    decreases TotalLen(s.rows)
  {
    if s.closed || s.queued <= 0 then s else
    match PickFrom(s, l, 0)
    case None => s
    case Some(p) =>
      SpliceTotals(s.rows, p.0, p.1);
      Drain(Admit(s, p.0, p.1), l)
  }

  // ── The operations ─────────────────────────────────────────────────────────

  /** What the caller's `onQueued` does while it runs. */
  datatype Callback = Quiet | Throws | Aborts | AbortsAndThrows

  function Waiting(s: State, t: Tenant): seq<Waiter> {
    var i := RowOf(s.rows, t);
    if i < 0 then [] else s.rows[i].waiters
  }

  predicate KeyQueued(ws: seq<Waiter>, key: KeyName) {
    exists j :: 0 <= j < |ws| && ws[j].key == key
  }

  predicate Full(s: State, l: Limits, t: Tenant, bytes: nat) {
    || s.queued >= l.maxQueued || |Waiting(s, t)| >= l.maxQueuedPerTenant
    || bytes > l.maxBytes - s.queuedBytes || bytes > l.maxBytesPerTenant - SumBytes(Waiting(s, t))
  }

  function Enqueue(s: State, t: Tenant, w: Waiter): State {
    var i := RowOf(s.rows, t);
    s.(rows := if i < 0 then s.rows + [Row(t, [w])] else s.rows[i := s.rows[i].(waiters := s.rows[i].waiters + [w])],
       queued := s.queued + 1, queuedBytes := s.queuedBytes + w.bytes)
  }

  function Remove(s: State, ticket: Ticket): State {
    match Position(s.rows, ticket, 0) case None => s case Some(p) => RemoveAt(s, p.0, p.1)
  }

  function Cancel(s: State, l: Limits, ticket: Ticket): State {
    Drain(Remove(s, ticket).(cancelled := s.cancelled + 1), l)
  }

  datatype Request = Request(tenant: Tenant, key: KeyName, bytes: nat, shared: bool, aborted: bool, callback: Callback)

  function Join(s: State, l: Limits, r: Request): State {
    var ticket := s.offered;
    var q := Enqueue(s, r.tenant, Waiter(ticket, r.key, r.bytes, r.shared));
    match r.callback
    case Quiet => Drain(q, l)
    case Throws => Cancel(q, l, ticket)
    case Aborts => Drain(Cancel(q, l, ticket), l)
    case AbortsAndThrows => Cancel(Cancel(q, l, ticket), l, ticket)
  }

  function Acquire(s: State, l: Limits, r: Request): State {
    var o := s.(offered := s.offered + 1);
    if s.closed || r.aborted then o.(cancelled := o.cancelled + 1) else
    var d := Drain(o, l);
    if !KeyQueued(Waiting(d, r.tenant), r.key) && Admissible(d, l, r.tenant, r.key, r.shared)
    then Reserve(d, d.offered, r.tenant, r.key, r.shared)
    else if Full(d, l, r.tenant, r.bytes) then d.(refused := d.refused + 1)
    else Join(d, l, r)
  }

  /** The timer of a waiter fires; timers of settled waiters are cleared. */
  function TimeOut(s: State, l: Limits, ticket: Ticket): State {
    if Position(s.rows, ticket, 0).None? then s
    else Drain(Remove(s, ticket).(refused := s.refused + 1), l)
  }

  function AbortWaiter(s: State, l: Limits, ticket: Ticket): State {
    if Position(s.rows, ticket, 0).None? then s else Cancel(s, l, ticket)
  }

  function Finish(s: State, l: Limits, ticket: Ticket): State {
    if ticket in s.grants then Drain(Release(s, ticket), l) else s
  }

  function Close(s: State): State {
    s.(closed := true, rows := [], queued := s.queued - TotalLen(s.rows), queuedBytes :=
        s.queuedBytes - TotalBytes(s.rows),
       cancelled := s.cancelled + TotalLen(s.rows))
  }

  datatype Event = Acquires(request: Request) | TimesOut(ticket: Ticket) | AbortsWaiter(ticket: Ticket)
    | Releases(ticket: Ticket) | Wakes | Closes

  function Next(s: State, l: Limits, e: Event): State {
    match e
    case Acquires(r) => Acquire(s, l, r)
    case TimesOut(t) => TimeOut(s, l, t)
    case AbortsWaiter(t) => AbortWaiter(s, l, t)
    case Releases(t) => Finish(s, l, t)
    case Wakes => Drain(s, l)
    case Closes => Close(s)
  }

  // ── The ledgers ────────────────────────────────────────────────────────────

  function TenantHolders(g: map<Ticket, Grant>, t: Tenant): set<Ticket> {
    set k | k in g && g[k].tenant == t
  }

  function KeyHolders(g: map<Ticket, Grant>, key: KeyName): set<Ticket> {
    set k | k in g && g[k].key == key
  }

  ghost predicate KeyOk(s: State, key: KeyName) {
    && (key in s.keys <==> KeyHolders(s.grants, key) != {})
    && (key in s.keys ==>
          && s.keys[key].count == |KeyHolders(s.grants, key)|
          && (!s.keys[key].shared ==> s.keys[key].count == 1)
          && (forall k :: k in KeyHolders(s.grants, key) ==> s.grants[k].shared == s.keys[key].shared))
  }

  ghost predicate TenantOk(s: State, l: Limits, t: Tenant) {
    TenantActive(s, t) == |TenantHolders(s.grants, t)| && TenantActive(s, t) <= l.perTenant
        && (t in s.tenants ==> s.tenants[t] > 0)
  }

  /** Use: active is the number of grants, and per tenant and per key it is theirs. */
  ghost predicate UseOk(s: State, l: Limits) {
    && s.active == |s.grants| && s.active <= l.capacity
    && (forall t :: TenantOk(s, l, t)) && (forall key :: KeyOk(s, key))
    && (forall k :: k in s.grants ==> k <= s.offered)
  }

  ghost predicate RowOk(r: Row, l: Limits) {
    r.waiters != [] && |r.waiters| <= l.maxQueuedPerTenant && SumBytes(r.waiters) <= l.maxBytesPerTenant
  }

  /** Queues: no empty row, no tenant twice, the counters are the sums, and the caps hold. */
  ghost predicate QueueOk(s: State, l: Limits) {
    && (forall i :: 0 <= i < |s.rows| ==> RowOk(s.rows[i], l))
    && (forall i, j :: 0 <= i < j < |s.rows| ==> s.rows[i].tenant != s.rows[j].tenant)
    && s.queued == TotalLen(s.rows) <= l.maxQueued && s.queuedBytes == TotalBytes(s.rows) <= l.maxBytes
    && (s.closed ==> s.rows == [])
  }

  function RowCount(ws: seq<Waiter>, t: Ticket): nat {
    if ws == [] then 0 else (if ws[0].ticket == t then 1 else 0) + RowCount(ws[1..], t)
  }

  /** How often a ticket is queued. */
  function Queued(rows: seq<Row>, t: Ticket): nat {
    if rows == [] then 0 else RowCount(rows[0].waiters, t) + Queued(rows[1..], t)
  }

  /** Every ticket up to `n` is queued once, or granted, or settled: never two of these. */
  ghost predicate TicketsOk(s: State, n: nat) {
    && (forall t :: TicketOk(s, n, t))
    && (forall t :: t in s.grants ==> t <= n)
  }

  ghost predicate TicketOk(s: State, n: nat, t: Ticket) {
    Queued(s.rows, t) <= 1 && (Queued(s.rows, t) == 1 ==> t <= n && t !in s.grants)
  }

  /** Requests accounted for, minus requests made; zero when every one is counted once. */
  function Balance(s: State): int {
    s.admitted + s.refused + s.cancelled + s.queued - s.offered
  }

  ghost predicate Inv(s: State, l: Limits, n: nat) {
    UseOk(s, l) && QueueOk(s, l) && TicketsOk(s, n) && s.admitted == s.completed + s.active
  }

  // ── Each change keeps them ─────────────────────────────────────────────────

  lemma ReserveTenants(s: State, l: Limits, ticket: Ticket, t: Tenant, key: KeyName, shared: bool, u: Tenant)
    requires TenantOk(s, l, u) && Admissible(s, l, t, key, shared) && ticket !in s.grants
    ensures TenantOk(Reserve(s, ticket, t, key, shared), l, u)
  {
    var g := Reserve(s, ticket, t, key, shared).grants;
    assert TenantHolders(g, u) == if u == t then TenantHolders(s.grants, u) + {ticket} else TenantHolders(s.grants, u);
  }

  lemma ReserveKeys(s: State, l: Limits, ticket: Ticket, t: Tenant, key: KeyName, shared: bool, k: KeyName)
    requires KeyOk(s, k) && Admissible(s, l, t, key, shared) && ticket !in s.grants
    ensures KeyOk(Reserve(s, ticket, t, key, shared), k)
  {
    var r := Reserve(s, ticket, t, key, shared);
    assert KeyHolders(r.grants, k) == if k == key then KeyHolders(s.grants, k) + {ticket} else KeyHolders(s.grants, k);
  }

  lemma ReserveUse(s: State, l: Limits, ticket: Ticket, t: Tenant, key: KeyName, shared: bool)
    requires UseOk(s, l) && Admissible(s, l, t, key, shared) && ticket !in s.grants && ticket <= s.offered
    ensures UseOk(Reserve(s, ticket, t, key, shared), l)
  {
    var r := Reserve(s, ticket, t, key, shared);
    forall u ensures TenantOk(r, l, u) { ReserveTenants(s, l, ticket, t, key, shared, u); }
    forall k ensures KeyOk(r, k) { ReserveKeys(s, l, ticket, t, key, shared, k); }
    hide TenantOk, KeyOk;
    assert r.grants.Keys == s.grants.Keys + {ticket};
    assert |r.grants.Keys| == |s.grants.Keys| + 1;
  }

  lemma ReleaseTenants(s: State, l: Limits, ticket: Ticket, u: Tenant)
    requires TenantOk(s, l, u) && ticket in s.grants
    ensures TenantOk(Release(s, ticket), l, u)
  {
    var g := Release(s, ticket).grants;
    assert TenantHolders(g, u) == if u == s.grants[ticket].tenant then TenantHolders(s.grants, u) - {ticket}
        else TenantHolders(s.grants, u);
    if u == s.grants[ticket].tenant { assert ticket in TenantHolders(s.grants, u); }
  }

  lemma ReleaseKeys(s: State, ticket: Ticket, k: KeyName)
    requires KeyOk(s, k) && ticket in s.grants
    ensures KeyOk(Release(s, ticket), k)
  {
    var r := Release(s, ticket);
    var before, after := KeyHolders(s.grants, k), KeyHolders(r.grants, k);
    assert after == if k == s.grants[ticket].key then before - {ticket} else before;
    if k == s.grants[ticket].key {
      assert ticket in before;
      assert |after| == |before| - 1;
    }
  }

  lemma ReleaseUse(s: State, l: Limits, ticket: Ticket)
    requires UseOk(s, l) && ticket in s.grants
    ensures UseOk(Release(s, ticket), l) && s.active > 0
  {
    var r := Release(s, ticket);
    forall u ensures TenantOk(r, l, u) { ReleaseTenants(s, l, ticket, u); }
    forall k ensures KeyOk(r, k) { ReleaseKeys(s, ticket, k); }
    hide TenantOk, KeyOk;
    assert r.grants.Keys == s.grants.Keys - {ticket};
    assert |r.grants.Keys| == |s.grants.Keys| - 1;
  }

  lemma {:induction false} SpliceTickets(rows: seq<Row>, i: nat, j: nat, t: Ticket)
    requires i < |rows| && j < |rows[i].waiters|
    ensures var ws := Splice(rows[i].waiters, j);
            var r := if ws == [] then Splice(rows, i) else rows[i := rows[i].(waiters := ws)];
            Queued(rows, t) == Queued(r, t) + if rows[i].waiters[j].ticket == t then 1 else 0
    decreases i
  {
    var ws := Splice(rows[i].waiters, j);
    SpliceRowTickets(rows[i].waiters, j, t);
    if i == 0 {
      if ws == [] { assert Splice(rows, 0) == rows[1..]; }
      else { assert rows[0 := rows[0].(waiters := ws)][1..] == rows[1..]; }
    } else {
      SpliceTickets(rows[1..], i - 1, j, t);
      if ws == [] { assert Splice(rows, i) == [rows[0]] + Splice(rows[1..], i - 1); }
      else { assert rows[i := rows[i].(waiters := ws)][1..] == rows[1..][i - 1 := rows[i].(waiters := ws)]; }
    }
  }

  lemma {:induction false} SpliceRowTickets(ws: seq<Waiter>, j: nat, t: Ticket)
    requires j < |ws|
    ensures RowCount(ws, t) == RowCount(Splice(ws, j), t) + if ws[j].ticket == t then 1 else 0
  {
    if j == 0 { assert Splice(ws, 0) == ws[1..]; }
    else {
      SpliceRowTickets(ws[1..], j - 1, t);
      assert Splice(ws, j) == [ws[0]] + Splice(ws[1..], j - 1);
    }
  }

  lemma RemoveQueue(s: State, l: Limits, i: nat, j: nat)
    requires QueueOk(s, l) && i < |s.rows| && j < |s.rows[i].waiters|
    ensures QueueOk(RemoveAt(s, i, j), l)
  {
    var ws, r := Splice(s.rows[i].waiters, j), RemoveAt(s, i, j).rows;
    SpliceTotals(s.rows, i, j);
    SpliceBytes(s.rows[i].waiters, j);
    hide TotalLen, TotalBytes, SumBytes;
    assert RowOk(s.rows[i], l);
    forall k | 0 <= k < |r| ensures RowOk(r[k], l) {
      if ws == [] { assert r[k] == s.rows[if k < i then k else k + 1]; }
      else if k != i { assert r[k] == s.rows[k]; }
    }
  }

  lemma RemoveTickets(s: State, i: nat, j: nat, n: nat)
    requires TicketsOk(s, n) && i < |s.rows| && j < |s.rows[i].waiters|
    ensures TicketsOk(RemoveAt(s, i, j), n)
    ensures Queued(RemoveAt(s, i, j).rows, s.rows[i].waiters[j].ticket) == 0
    ensures s.rows[i].waiters[j].ticket !in s.grants && s.rows[i].waiters[j].ticket <= n
  {
    var t := s.rows[i].waiters[j].ticket;
    forall u ensures TicketOk(RemoveAt(s, i, j), n, u) {
      assert TicketOk(s, n, u);
      SpliceTickets(s.rows, i, j, u);
    }
    assert TicketOk(s, n, t);
    SpliceTickets(s.rows, i, j, t);
  }

  lemma AdmitInv(s: State, l: Limits, n: nat, i: nat, j: nat)
    requires Inv(s, l, n) && i < |s.rows| && j < |s.rows[i].waiters| && Runnable(s, l, i, j) && n <= s.offered
    ensures Inv(Admit(s, i, j), l, n) && Balance(Admit(s, i, j)) == Balance(s)
  {
    hide UseOk, QueueOk, Queued, BehindWriter;
    var w, t := s.rows[i].waiters[j], s.rows[i].tenant;
    RemoveTickets(s, i, j, n);
    RemoveQueue(s, l, i, j);
    ReserveUse(s, l, w.ticket, t, w.key, w.shared);
    var a := Admit(s, i, j);
    SameUse(Reserve(s, w.ticket, t, w.key, w.shared), a, l);
    SameQueue(RemoveAt(s, i, j), a, l);
    forall u ensures TicketOk(a, n, u) { assert TicketOk(RemoveAt(s, i, j), n, u); }
  }

  lemma SameUse(a: State, b: State, l: Limits)
    requires UseOk(a, l) && b.active == a.active && b.grants == a.grants && b.tenants == a.tenants && b.keys == a.keys
             && b.offered >= a.offered
    ensures UseOk(b, l)
  {
    forall t ensures TenantOk(b, l, t) { assert TenantOk(a, l, t); }
    forall k ensures KeyOk(b, k) { assert KeyOk(a, k); }
    hide TenantOk, KeyOk;
  }

  lemma SameQueue(a: State, b: State, l: Limits)
    requires QueueOk(a, l) && b.rows == a.rows && b.queued == a.queued && b.queuedBytes == a.queuedBytes
             && b.closed == a.closed
    ensures QueueOk(b, l)
  {
  }

  // ── Work conservation ──────────────────────────────────────────────────────

  /** No queued waiter could run, but for those behind a queued writer of the same key. */
  ghost predicate Settled(s: State, l: Limits) {
    forall i, j :: 0 <= i < |s.rows| && 0 <= j < |s.rows[i].waiters| ==> !Runnable(s, l, i, j)
  }

  lemma {:induction false} PickNone(s: State, l: Limits, offset: nat, o: nat, j: nat)
    requires offset <= o < |s.rows| && PickFrom(s, l, offset).None? && j < |s.rows[Visited(s, o)].waiters|
    ensures !Runnable(s, l, Visited(s, o), j)
    decreases |s.rows| - offset
  {
    hide Runnable;
    if offset < o { PickNone(s, l, offset + 1, o, j); }
  }

  /** How far the rotation is from a row. */
  function Distance(s: State, i: nat): (o: nat)
    requires i < |s.rows|
    ensures o < |s.rows| && Visited(s, o) == i
  {
    var p := Previous(s);
    if i > p then i - p - 1 else i - p - 1 + |s.rows|
  }

  lemma PickNoneSettled(s: State, l: Limits)
    requires PickFrom(s, l, 0).None?
    ensures Settled(s, l)
  {
    hide Runnable;
    forall i, j | 0 <= i < |s.rows| && 0 <= j < |s.rows[i].waiters| ensures !Runnable(s, l, i, j) {
      PickNone(s, l, 0, Distance(s, i), j);
    }
  }

  lemma {:induction false} DrainInv(s: State, l: Limits, n: nat)
    requires Inv(s, l, n) && n <= s.offered
    ensures var d := Drain(s, l);
            && Inv(d, l, n) && Balance(d) == Balance(s) && d.offered == s.offered && d.closed == s.closed
            && d.completed == s.completed && d.refused == s.refused && d.cancelled == s.cancelled
            && (d.closed || Settled(d, l))
    ensures forall t :: Queued(Drain(s, l).rows, t) <= Queued(s.rows, t)
    decreases TotalLen(s.rows)
  {
    hide UseOk, Settled, Runnable, Queued, TicketsOk;
    if !s.closed && s.queued > 0 {
      if PickFrom(s, l, 0).Some? {
        var p := PickFrom(s, l, 0).value;
        AdmitInv(s, l, n, p.0, p.1);
        SpliceTotals(s.rows, p.0, p.1);
        forall t ensures Queued(Admit(s, p.0, p.1).rows, t) <= Queued(s.rows, t) { SpliceTickets(s.rows, p.0, p.1, t); }
        DrainInv(Admit(s, p.0, p.1), l, n);
      } else {
        PickNoneSettled(s, l);
      }
    } else if !s.closed {
      NothingQueued(s, l);
    }
  }

  lemma NothingQueued(s: State, l: Limits)
    requires QueueOk(s, l) && s.queued == 0
    ensures s.rows == [] && Settled(s, l)
  {
    assert s.rows == [] || RowOk(s.rows[0], l);
  }

  /** Using up capacity never makes a waiter runnable. */
  lemma ReserveSettled(s: State, l: Limits, ticket: Ticket, t: Tenant, key: KeyName, shared: bool)
    requires Settled(s, l) && Admissible(s, l, t, key, shared)
    ensures Settled(Reserve(s, ticket, t, key, shared), l)
  {
    var r := Reserve(s, ticket, t, key, shared);
    forall i, j | 0 <= i < |r.rows| && 0 <= j < |r.rows[i].waiters| ensures !Runnable(r, l, i, j) {
      assert !Runnable(s, l, i, j);
    }
  }

  // ── Joining and leaving the queue ──────────────────────────────────────────

  lemma {:induction false} AppendTotals(rows: seq<Row>, i: nat, w: Waiter)
    requires i < |rows|
    ensures var r := rows[i := rows[i].(waiters := rows[i].waiters + [w])];
            TotalLen(r) == TotalLen(rows) + 1 && TotalBytes(r) == TotalBytes(rows) + w.bytes
    ensures forall t ::
              Queued(rows[i := rows[i].(waiters := rows[i].waiters + [w])], t) ==
              Queued(rows, t) + if w.ticket == t then 1 else 0
  {
    var r := rows[i := rows[i].(waiters := rows[i].waiters + [w])];
    AppendRow(rows[i].waiters, w);
    if i == 0 {
      assert r[1..] == rows[1..];
    } else {
      AppendTotals(rows[1..], i - 1, w);
      assert r[1..] == rows[1..][i - 1 := rows[i].(waiters := rows[i].waiters + [w])];
    }
  }

  lemma {:induction false} AppendRow(ws: seq<Waiter>, w: Waiter)
    ensures SumBytes(ws + [w]) == SumBytes(ws) + w.bytes
    ensures forall t :: RowCount(ws + [w], t) == RowCount(ws, t) + if w.ticket == t then 1 else 0
  {
    if ws == [] {
      assert ws + [w] == [w] && [w][1..] == [];
    } else {
      assert (ws + [w])[1..] == ws[1..] + [w];
      AppendRow(ws[1..], w);
    }
  }

  lemma {:induction false} NewRowTotals(rows: seq<Row>, t: Tenant, w: Waiter)
    ensures TotalLen(rows + [Row(t, [w])]) == TotalLen(rows) + 1
            && TotalBytes(rows + [Row(t, [w])]) == TotalBytes(rows) + w.bytes
    ensures forall u :: Queued(rows + [Row(t, [w])], u) == Queued(rows, u) + if w.ticket == u then 1 else 0
  {
    if rows == [] {
      assert rows + [Row(t, [w])] == [Row(t, [w])] && [Row(t, [w])][1..] == [];
      AppendRow([], w);
      assert [] + [w] == [w];
    } else {
      assert (rows + [Row(t, [w])])[1..] == rows[1..] + [Row(t, [w])];
      NewRowTotals(rows[1..], t, w);
    }
  }

  lemma EnqueueTotals(s: State, t: Tenant, w: Waiter)
    ensures var q := Enqueue(s, t, w);
            TotalLen(q.rows) == TotalLen(s.rows) + 1 && TotalBytes(q.rows) == TotalBytes(s.rows) + w.bytes
    ensures forall u :: Queued(Enqueue(s, t, w).rows, u) == Queued(s.rows, u) + if w.ticket == u then 1 else 0
  {
    var i := RowOf(s.rows, t);
    if i < 0 { NewRowTotals(s.rows, t, w); } else { AppendTotals(s.rows, i, w); }
  }

  lemma EnqueueQueue(s: State, l: Limits, t: Tenant, w: Waiter)
    requires QueueOk(s, l) && !s.closed && !Full(s, l, t, w.bytes)
    ensures QueueOk(Enqueue(s, t, w), l)
  {
    var i, q := RowOf(s.rows, t), Enqueue(s, t, w);
    EnqueueTotals(s, t, w);
    AppendRow(Waiting(s, t), w);
    hide TotalLen, TotalBytes, Queued, RowCount;
    forall k | 0 <= k < |q.rows| ensures RowOk(q.rows[k], l) {
      if k < |s.rows| { assert RowOk(s.rows[k], l); }
      if i < 0 && k == |s.rows| { assert [] + [w] == [w]; }
    }
  }

  lemma EnqueueInv(s: State, l: Limits, t: Tenant, w: Waiter, n: nat)
    requires Inv(s, l, n) && !s.closed && !Full(s, l, t, w.bytes) && n < w.ticket <= s.offered
    ensures Inv(Enqueue(s, t, w), l, w.ticket) && Balance(Enqueue(s, t, w)) == Balance(s) + 1
    ensures Queued(Enqueue(s, t, w).rows, w.ticket) == 1
  {
    var q := Enqueue(s, t, w);
    EnqueueQueue(s, l, t, w);
    EnqueueTotals(s, t, w);
    assert TicketOk(s, n, w.ticket);
    hide QueueOk, Queued, TotalLen, TotalBytes;
    SameUse(s, q, l);
    forall u ensures TicketOk(q, w.ticket, u) { assert TicketOk(s, n, u); }
  }

  lemma {:induction false} IndexMissing(ws: seq<Waiter>, t: Ticket, from: nat)
    requires from <= |ws|
    ensures IndexIn(ws, t, from).None? <==> RowCount(ws[from..], t) == 0
    decreases |ws| - from
  {
    if from < |ws| {
      assert ws[from..][0] == ws[from] && ws[from..][1..] == ws[from + 1..];
      IndexMissing(ws, t, from + 1);
    }
  }

  lemma {:induction false} PositionMissing(rows: seq<Row>, t: Ticket, from: nat)
    requires from <= |rows|
    ensures Position(rows, t, from).None? <==> Queued(rows[from..], t) == 0
    decreases |rows| - from
  {
    if from < |rows| {
      var ws := rows[from].waiters;
      assert rows[from..][0] == rows[from] && rows[from..][1..] == rows[from + 1..];
      IndexMissing(ws, t, 0);
      assert ws[0..] == ws;
      PositionMissing(rows, t, from + 1);
    }
  }

  lemma RemoveInv(s: State, l: Limits, t: Ticket, n: nat)
    requires Inv(s, l, n)
    ensures Position(s.rows, t, 0).None? <==> Queued(s.rows, t) == 0
    ensures Inv(Remove(s, t), l, n) && Queued(Remove(s, t).rows, t) == 0
    ensures Balance(Remove(s, t)) == Balance(s) - if Queued(s.rows, t) == 0 then 0 else 1
    ensures Remove(s, t).offered == s.offered
  {
    assert s.rows[0..] == s.rows;
    PositionMissing(s.rows, t, 0);
    if Position(s.rows, t, 0).Some? {
      var p := Position(s.rows, t, 0).value;
      RemoveQueue(s, l, p.0, p.1);
      RemoveTickets(s, p.0, p.1, n);
      hide QueueOk, TicketsOk;
      SameUse(s, Remove(s, t), l);
    }
  }

  lemma Recount(a: State, b: State, l: Limits, n: nat)
    requires Inv(a, l, n) && b == a.(refused := b.refused, cancelled := b.cancelled, offered := b.offered)
             && b.offered >= a.offered
    ensures Inv(b, l, n)
  {
    hide QueueOk;
    SameUse(a, b, l);
    SameQueue(a, b, l);
    forall t ensures TicketOk(b, n, t) { assert TicketOk(a, n, t); }
  }

  lemma CancelInv(s: State, l: Limits, t: Ticket, n: nat)
    requires Inv(s, l, n) && n <= s.offered
    ensures var c := Cancel(s, l, t);
            && Inv(c, l, n) && c.offered == s.offered && (c.closed || Settled(c, l)) && Queued(c.rows, t) == 0
            && Balance(c) == Balance(s) + if Queued(s.rows, t) == 0 then 1 else 0
  {
    hide Inv, Settled, Queued, Remove, Drain;
    RemoveInv(s, l, t, n);
    var r := Remove(s, t);
    var c := r.(cancelled := s.cancelled + 1);
    RemoveFields(s, t);
    Recount(r, c, l, n);
    DrainInv(c, l, n);
  }

  lemma RemoveFields(s: State, t: Ticket)
    ensures var r := Remove(s, t);
            r.cancelled == s.cancelled && r.refused == s.refused && r.admitted == s.admitted && r.offered == s.offered
                && r.closed == s.closed
  {
  }

  predicate DoublyCancelled(e: Event) {
    e.Acquires? && e.request.callback == AbortsAndThrows
  }

  lemma JoinInv(s: State, l: Limits, r: Request, n: nat)
    requires Inv(s, l, n) && n < s.offered && !s.closed && !Full(s, l, r.tenant, r.bytes)
    ensures var j := Join(s, l, r);
            && Inv(j, l, s.offered) && j.offered == s.offered && (j.closed || Settled(j, l))
            && Balance(j) == Balance(s) + if r.callback == AbortsAndThrows then 2 else 1
  {
    hide Inv, Settled, Queued, Cancel, Drain, Enqueue, Full;
    var ticket := s.offered;
    var w := Waiter(ticket, r.key, r.bytes, r.shared);
    EnqueueInv(s, l, r.tenant, w, n);
    var q := Enqueue(s, r.tenant, w);
    EnqueueFields(s, r.tenant, w);
    match r.callback
    case Quiet => DrainInv(q, l, ticket);
    case Throws => CancelInv(q, l, ticket, ticket);
    case Aborts =>
      CancelInv(q, l, ticket, ticket);
      DrainInv(Cancel(q, l, ticket), l, ticket);
    case AbortsAndThrows =>
      CancelInv(q, l, ticket, ticket);
      CancelInv(Cancel(q, l, ticket), l, ticket, ticket);
  }

  lemma EnqueueFields(s: State, t: Tenant, w: Waiter)
    ensures Enqueue(s, t, w).offered == s.offered && Enqueue(s, t, w).closed == s.closed
  {
  }

  // ── Every operation ────────────────────────────────────────────────────────

  ghost predicate Good(s: State, l: Limits) {
    Inv(s, l, s.offered) && (s.closed || Settled(s, l))
  }

  lemma SettledRecount(a: State, b: State, l: Limits)
    requires Settled(a, l) && b == a.(refused := b.refused, cancelled := b.cancelled, offered := b.offered)
    ensures Settled(b, l)
  {
    forall i, j | 0 <= i < |b.rows| && 0 <= j < |b.rows[i].waiters| ensures !Runnable(b, l, i, j) {
      assert !Runnable(a, l, i, j);
    }
  }

  lemma WeakenInv(s: State, l: Limits, n: nat, m: nat)
    requires Inv(s, l, n) && n <= m
    ensures Inv(s, l, m)
  {
    hide UseOk, QueueOk;
    forall t ensures TicketOk(s, m, t) { assert TicketOk(s, n, t); }
  }

  predicate ReachesQueue(s: State, l: Limits, r: Request) {
    var d := Drain(s.(offered := s.offered + 1), l);
    !s.closed && !r.aborted && !Immediate(d, l, r) && !Full(d, l, r.tenant, r.bytes)
  }

  /** A request keeps the ledgers; it is counted twice exactly when it is queued and its callback both
      aborts the signal and throws. */
  lemma AcquireGood(s: State, l: Limits, r: Request)
    requires Good(s, l)
    ensures Good(Acquire(s, l, r), l)
    ensures Balance(Acquire(s, l, r)) == Balance(s) + if ReachesQueue(s, l, r)
            && r.callback == AbortsAndThrows then 1 else 0
  {
    hide Inv, Settled, Drain, Full, Join, Admissible, KeyQueued, Reserve;
    var o := s.(offered := s.offered + 1);
    Recount(s, o, l, s.offered);
    if s.closed || r.aborted {
      var c := o.(cancelled := o.cancelled + 1);
      Recount(o, c, l, s.offered);
      WeakenInv(c, l, s.offered, c.offered);
      if !s.closed { SettledRecount(s, c, l); }
    } else {
      DrainInv(o, l, s.offered);
      var d := Drain(o, l);
      if Immediate(d, l, r) {
        ImmediateGood(d, l, r, s.offered);
      } else if Full(d, l, r.tenant, r.bytes) {
        var f := d.(refused := d.refused + 1);
        Recount(d, f, l, s.offered);
        WeakenInv(f, l, s.offered, f.offered);
        SettledRecount(d, f, l);
      } else {
        JoinInv(d, l, r, s.offered);
      }
    }
  }

  /** The request skips the queue. */
  predicate Immediate(d: State, l: Limits, r: Request) {
    !KeyQueued(Waiting(d, r.tenant), r.key) && Admissible(d, l, r.tenant, r.key, r.shared)
  }

  lemma ImmediateGood(d: State, l: Limits, r: Request, n: nat)
    requires Inv(d, l, n) && n < d.offered && Settled(d, l) && Admissible(d, l, r.tenant, r.key, r.shared)
    ensures Good(Reserve(d, d.offered, r.tenant, r.key, r.shared), l)
    ensures Balance(Reserve(d, d.offered, r.tenant, r.key, r.shared)) == Balance(d) + 1
  {
    hide UseOk, QueueOk, Settled, Admissible;
    assert d.offered !in d.grants;
    ReserveUse(d, l, d.offered, r.tenant, r.key, r.shared);
    ReserveSettled(d, l, d.offered, r.tenant, r.key, r.shared);
    var a := Reserve(d, d.offered, r.tenant, r.key, r.shared);
    SameQueue(d, a, l);
    forall t ensures TicketOk(a, d.offered, t) { assert TicketOk(d, n, t); }
  }

  lemma LeaveGood(s: State, l: Limits, e: Event)
    requires Good(s, l) && !e.Acquires?
    ensures Good(Next(s, l, e), l) && Balance(Next(s, l, e)) == Balance(s)
  {
    hide Inv, Settled, Drain, Queued;
    match e
    case TimesOut(t) =>
      RemoveInv(s, l, t, s.offered);
      RemoveFields(s, t);
      if Position(s.rows, t, 0).Some? {
        var r := Remove(s, t);
        Recount(r, r.(refused := s.refused + 1), l, s.offered);
        DrainInv(r.(refused := s.refused + 1), l, s.offered);
      }
    case AbortsWaiter(t) =>
      RemoveInv(s, l, t, s.offered);
      if Position(s.rows, t, 0).Some? { CancelInv(s, l, t, s.offered); }
    case Releases(t) =>
      if t in s.grants {
        ReleaseInv(s, l, t);
        DrainInv(Release(s, t), l, s.offered);
      }
    case Wakes => DrainInv(s, l, s.offered);
    case Closes => CloseGood(s, l);
  }

  lemma ReleaseInv(s: State, l: Limits, t: Ticket)
    requires Inv(s, l, s.offered) && t in s.grants
    ensures Inv(Release(s, t), l, s.offered) && Balance(Release(s, t)) == Balance(s)
            && Release(s, t).offered == s.offered
  {
    ReleaseUse(s, l, t);
    var r := Release(s, t);
    hide UseOk;
    SameQueue(s, r, l);
    hide QueueOk;
    forall u ensures TicketOk(r, s.offered, u) { assert TicketOk(s, s.offered, u); }
  }

  lemma CloseGood(s: State, l: Limits)
    requires Inv(s, l, s.offered)
    ensures Good(Close(s), l) && Balance(Close(s)) == Balance(s)
  {
    SameUse(s, Close(s), l);
    assert forall t :: TicketOk(Close(s), s.offered, t);
    hide UseOk;
  }

  const EMPTY := State([], map[], map[], map[], 0, 0, 0, false, None, 0, 0, 0, 0, 0)

  function RunAll(l: Limits, events: seq<Event>): State {
    if events == [] then EMPTY else Next(RunAll(l, events[..|events| - 1]), l, events[|events| - 1])
  }

  /** In every reachable state the ledgers hold, every cap holds, an exclusive key has one holder, and
      no waiter could run: an immediate admission never takes a slot a waiter could use. When no
      callback both aborts and throws, every request is counted exactly once. */
  lemma {:induction false} ReachableGood(l: Limits, events: seq<Event>)
    ensures Good(RunAll(l, events), l)
    ensures (forall i :: 0 <= i < |events| ==> !DoublyCancelled(events[i])) ==> Balance(RunAll(l, events)) == 0
  {
    if events == [] {
      assert EMPTY.grants == map[];
      assert forall t :: TenantHolders(EMPTY.grants, t) == {};
      assert forall k :: KeyHolders(EMPTY.grants, k) == {};
    } else {
      hide Good, Next, Balance;
      var init, e := events[..|events| - 1], events[|events| - 1];
      ReachableGood(l, init);
      var s := RunAll(l, init);
      StepGood(s, l, e);
      assert (forall i :: 0 <= i < |events| ==> !DoublyCancelled(events[i])) ==>
               (forall i :: 0 <= i < |init| ==> !DoublyCancelled(init[i])) && !DoublyCancelled(events[|events| - 1]);
    }
  }

  lemma StepGood(s: State, l: Limits, e: Event)
    requires Good(s, l)
    ensures Good(Next(s, l, e), l) && Balance(s) <= Balance(Next(s, l, e)) <= Balance(s) + 1
    ensures !DoublyCancelled(e) ==> Balance(Next(s, l, e)) == Balance(s)
  {
    hide Good;
    if e.Acquires? { AcquireGood(s, l, e.request); } else { LeaveGood(s, l, e); }
  }

  const ONE_SLOT := Limits(1, 1, 9, 9, 99, 99)
  const ONE_TAKEN := State([], map["k" := Use(1, false)], map["t" := 1], map[1 := Grant("t", "k", false)],
                           1, 0, 0, false, None, 1, 1, 0, 0, 0)
  const POLITE := Request("t", "k", 1, false, false, Quiet)
  const RUDE := Request("t", "k", 1, false, false, AbortsAndThrows)

  lemma SlotTaken()
    ensures Acquire(EMPTY, ONE_SLOT, POLITE) == ONE_TAKEN
  {
    var o := EMPTY.(offered := 1);
    assert Drain(o, ONE_SLOT) == o;
    assert Waiting(o, "t") == [];
    assert Reserve(o, 1, "t", "k", false) == ONE_TAKEN;
  }

  lemma NextQueues()
    ensures ReachesQueue(ONE_TAKEN, ONE_SLOT, RUDE)
  {
    var o := ONE_TAKEN.(offered := 2);
    assert Drain(o, ONE_SLOT) == o;
    assert Waiting(o, "t") == [];
  }

  /** The double count does happen: with the one slot taken, a request is queued, and its callback aborts
      the signal and throws. */
  lemma CountedTwice()
    ensures Balance(RunAll(ONE_SLOT, [Acquires(POLITE), Acquires(RUDE)])) == 1
  {
    SlotReached();
    NextQueues();
    var events := [Acquires(POLITE), Acquires(RUDE)];
    assert events[..1] == [Acquires(POLITE)];
    hide Acquire, Good, ReachesQueue;
    ReachableGood(ONE_SLOT, events[..1]);
    AcquireGood(ONE_TAKEN, ONE_SLOT, RUDE);
  }

  lemma SlotReached()
    ensures RunAll(ONE_SLOT, [Acquires(POLITE)]) == ONE_TAKEN
  {
    SlotTaken();
    var events := [Acquires(POLITE)];
    assert events[..0] == [];
    hide Acquire;
  }

  /** Releasing twice changes nothing the second time. */
  lemma ReleaseOnce(s: State, l: Limits, t: Ticket)
    requires Good(s, l)
    ensures Finish(Finish(s, l, t), l, t) == Finish(s, l, t)
  {
    if t in s.grants {
      assert TicketOk(s, s.offered, t);
      hide UseOk, QueueOk, Settled, Queued;
      ReleaseInv(s, l, t);
      StaysOut(Release(s, t), l, t);
    }
  }

  lemma {:induction false} StaysOut(s: State, l: Limits, t: Ticket)
    requires t !in s.grants && Queued(s.rows, t) == 0
    ensures t !in Drain(s, l).grants
    decreases TotalLen(s.rows)
  {
    hide Runnable, Queued;
    if !s.closed && s.queued > 0 && PickFrom(s, l, 0).Some? {
      var p := PickFrom(s, l, 0).value;
      SpliceTotals(s.rows, p.0, p.1);
      SpliceTickets(s.rows, p.0, p.1, t);
      StaysOut(Admit(s, p.0, p.1), l, t);
    }
  }

  // ── No starvation ──────────────────────────────────────────────────────────

  /** The rotation reaches a row after at most this many admissions of others: the number of rows
      first, then the distance from the row served last. */
  function Rank(s: State, i: nat): nat
    requires i < |s.rows|
  {
    |s.rows| * |s.rows| + Distance(s, i)
  }

  lemma {:induction false} PickIsFirst(s: State, l: Limits, offset: nat, i: nat, j: nat)
    requires i < |s.rows| && j < |s.rows[i].waiters| && Runnable(s, l, i, j) && offset <= Distance(s, i)
    ensures PickFrom(s, l, offset).Some? && Distance(s, PickFrom(s, l, offset).value.0) <= Distance(s, i)
    decreases |s.rows| - offset
  {
    hide Runnable;
    var v := Visited(s, offset);
    if FirstRunnable(s, l, v, 0).Some? {
      assert Distance(s, v) == offset;
    } else {
      PickIsFirst(s, l, offset + 1, i, j);
    }
  }

  lemma {:induction false} RowOfIs(rows: seq<Row>, i: nat)
    requires i < |rows| && forall a, b :: 0 <= a < b < |rows| ==> rows[a].tenant != rows[b].tenant
    ensures RowOf(rows, rows[i].tenant) == i
  {
    if i > 0 { RowOfIs(rows[1..], i - 1); }
  }

  /** Starvation freedom: whenever a tenant has a waiter that could run and another tenant's waiter is
      admitted instead, the tenant's rank drops. */
  lemma PassedOverRankDrops(s: State, l: Limits, i: nat, j: nat)
    requires QueueOk(s, l) && i < |s.rows| && j < |s.rows[i].waiters| && Runnable(s, l, i, j)
    ensures PickFrom(s, l, 0).Some?
    ensures var p := PickFrom(s, l, 0).value;
            var a := Admit(s, p.0, p.1);
            p.0 != i ==>
              var k := RowOf(a.rows, s.rows[i].tenant);
              k >= 0 && a.rows[k] == s.rows[i] && Rank(a, k) < Rank(s, i)
  {
    hide Runnable;
    PickIsFirst(s, l, 0, i, j);
    var p := PickFrom(s, l, 0).value;
    RemoveQueue(s, l, p.0, p.1);
    hide PickFrom, QueueOk, Reserve;
    if p.0 != i {
      if |s.rows[p.0].waiters| == 1 { RowGone(s, l, p.0, p.1, i); } else { RowStays(s, l, p.0, p.1, i); }
    }
  }

  /** The admission emptied its row: there is one row fewer. */
  lemma RowGone(s: State, l: Limits, at: nat, j: nat, i: nat)
    requires at < |s.rows| && |s.rows[at].waiters| == 1 && j == 0 && i < |s.rows| && i != at
             && QueueOk(RemoveAt(s, at, j), l)
    ensures var a := Admit(s, at, j);
            var k := RowOf(a.rows, s.rows[i].tenant);
            k >= 0 && a.rows[k] == s.rows[i] && Rank(a, k) < Rank(s, i)
  {
    var a := Admit(s, at, j);
    assert a.rows == Splice(s.rows, at);
    var k := if i < at then i else i - 1;
    assert a.rows[k] == s.rows[i];
    RowOfIs(a.rows, k);
    hide QueueOk, RowOf, Previous;
    Squares(|s.rows|);
  }

  /** The row is still there: it is the one served last, and the others moved up. */
  lemma RowStays(s: State, l: Limits, at: nat, j: nat, i: nat)
    requires at < |s.rows| && j < |s.rows[at].waiters| && |s.rows[at].waiters| > 1 && QueueOk(RemoveAt(s, at, j), l)
    requires i < |s.rows| && i != at && Distance(s, at) <= Distance(s, i)
    ensures var a := Admit(s, at, j);
            var k := RowOf(a.rows, s.rows[i].tenant);
            k >= 0 && a.rows[k] == s.rows[i] && Rank(a, k) < Rank(s, i)
  {
    var a := Admit(s, at, j);
    assert a.rows[i] == s.rows[i] && |a.rows| == |s.rows|;
    RowOfIs(a.rows, i);
    assert a.rows[at].tenant == s.rows[at].tenant;
    RowOfIs(a.rows, at);
    assert Previous(a) == at;
    hide QueueOk, RowOf;
  }

  /** From one admission to the next scan nobody new queues up: releases, timeouts and arrivals of
      tenants that are queued already leave the same queues, or fewer. */
  ghost predicate Calm(a: State, b: State) {
    b.last == a.last && (|b.rows| < |a.rows| || (|b.rows| == |a.rows| && SameTenants(a.rows, b.rows)))
  }

  ghost predicate SameTenants(a: seq<Row>, b: seq<Row>)
    requires |a| == |b|
  {
    forall i :: 0 <= i < |a| ==> b[i].tenant == a[i].tenant
  }

  lemma {:induction false} SameRowOf(a: seq<Row>, b: seq<Row>, t: Tenant)
    requires |a| == |b| && SameTenants(a, b)
    ensures RowOf(b, t) == RowOf(a, t)
  {
    if a != [] {
      assert b[0].tenant == a[0].tenant;
      SameRowOf(a[1..], b[1..], t);
    }
  }

  lemma CalmKeepsRank(a: State, b: State, t: Tenant)
    requires Calm(a, b) && RowOf(a.rows, t) >= 0 && RowOf(b.rows, t) >= 0
    ensures Rank(b, RowOf(b.rows, t)) <= Rank(a, RowOf(a.rows, t))
  {
    if |b.rows| < |a.rows| {
      hide RowOf, Previous;
      Squares(|a.rows|);
      Squeeze(|b.rows|, |a.rows|);
    } else {
      SameRowOf(a.rows, b.rows, t);
      if a.last.Some? { SameRowOf(a.rows, b.rows, a.last.value); }
    }
  }

  lemma {:induction false} Squeeze(m: nat, n: nat)
    requires m < n
    ensures m * m + m < n * n
  {
    Squares(n);
    if m < n - 1 { Squeeze(m, n - 1); }
  }

  lemma Squares(n: nat)
    requires n >= 1
    ensures (n - 1) * (n - 1) + (n - 1) < n * n
  {
  }
}
