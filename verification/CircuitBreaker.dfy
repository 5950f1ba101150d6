/** The Redis circuit breaker: closed, open with a cool-down, half-open with a single probe that holds
    a generation ticket. Any number of commands are outstanding at once, and settle in any order. */
module CircuitBreaker {
  import opened Options

  datatype Mode = Closed | Open | HalfOpen
  datatype Config = Config(threshold: nat, openMs: nat)
  datatype Breaker = Breaker(mode: Mode, failures: nat, openedAt: int, inFlight: bool, generation: nat)

  const FRESH := Breaker(Closed, 0, 0, false, 0)

  function Probed(b: Breaker): Breaker {
    b.(mode := HalfOpen, inFlight := true, generation := b.generation + 1)
  }

  /** Whether a command may go out, and the ticket when it goes out as the probe. */
  function TryAcquire(b: Breaker, c: Config, now: int): (Breaker, bool, Option<nat>) {
    match b.mode
    case Closed => (b, true, None)
    case HalfOpen => if b.inFlight then (b, false, None) else (Probed(b), true, Some(b.generation + 1))
    case Open => if now - b.openedAt >= c.openMs then (Probed(b), true, Some(b.generation + 1)) else (b, false, None)
  }

  predicate IsOpen(b: Breaker, c: Config, now: int) {
    match b.mode
    case Closed => false
    case HalfOpen => b.inFlight
    case Open => now - b.openedAt < c.openMs
  }

  function Opened(b: Breaker, c: Config, now: int): Breaker {
    b.(mode := Open, openedAt := if b.mode == Open then b.openedAt else now, inFlight := false, failures := c.threshold)
  }

  function RecordSuccess(b: Breaker, probe: Option<nat>): Breaker {
    if b.mode == Open || (b.mode == HalfOpen && probe != Some(b.generation)) then b
    else b.(mode := Closed, failures := 0, inFlight := false)
  }

  function RecordFailure(b: Breaker, c: Config, probe: Option<nat>, now: int): Breaker {
    if b.mode == HalfOpen then (if probe != Some(b.generation) then b else Opened(b, c, now))
    else if b.failures + 1 >= c.threshold then Opened(b, c, now)
    else b.(failures := b.failures + 1)
  }

  class RedisCircuitBreaker {
    const config: Config
    var mode: Mode
    var consecutiveFailures: nat
    var openedAt: int
    var halfOpenInFlight: bool
    var probeGeneration: nat

    function Value(): Breaker
      reads this
    {
      Breaker(mode, consecutiveFailures, openedAt, halfOpenInFlight, probeGeneration)
    }

    constructor (c: Config)
      ensures Value() == FRESH && config == c
    {
      config := c;
      mode, consecutiveFailures, openedAt, halfOpenInFlight, probeGeneration := Closed, 0, 0, false, 0;
    }

    method Acquire(now: int) returns (ok: bool, ticket: Option<nat>)
      modifies this
      ensures (Value(), ok, ticket) == TryAcquire(old(Value()), config, now)
    {
      if mode == Closed { return true, None; }
      if mode == HalfOpen {
        if halfOpenInFlight { return false, None; }
        halfOpenInFlight := true;
        probeGeneration := probeGeneration + 1;
        return true, Some(probeGeneration);
      }
      if now - openedAt >= config.openMs {
        mode := HalfOpen;
        halfOpenInFlight := true;
        probeGeneration := probeGeneration + 1;
        return true, Some(probeGeneration);
      }
      return false, None;
    }

    method Succeeded(probe: Option<nat>)
      modifies this
      ensures Value() == RecordSuccess(old(Value()), probe)
    {
      if mode == Open { return; }
      if mode == HalfOpen && probe != Some(probeGeneration) { return; }
      mode := Closed;
      consecutiveFailures := 0;
      halfOpenInFlight := false;
    }

    method Failed(probe: Option<nat>, now: int)
      modifies this
      ensures Value() == RecordFailure(old(Value()), config, probe, now)
    {
      if mode == HalfOpen {
        if probe != Some(probeGeneration) { return; }
        Trip(now);
        return;
      }
      consecutiveFailures := consecutiveFailures + 1;
      if consecutiveFailures >= config.threshold { Trip(now); }
    }

    method Trip(now: int)
      modifies this
      ensures Value() == Opened(old(Value()), config, now)
    {
      var reopened := mode == Open;
      mode := Open;
      if !reopened { openedAt := now; }
      halfOpenInFlight := false;
      consecutiveFailures := config.threshold;
    }
  }

  // ── Commands in flight ─────────────────────────────────────────────────────

  type Command = nat

  /** Outstanding commands with the ticket each would settle with. */
  datatype State = State(breaker: Breaker, out: map<Command, Option<nat>>, issued: nat)

  /** A caller asks to send a command; one without a ticket holder (`assertClosed`) drops the ticket. */
  datatype Event = Asks(now: int, holder: bool) | Settles(command: Command, success: bool, now: int)

  predicate Enabled(s: State, e: Event) {
    e.Settles? ==> e.command in s.out
  }

  function Next(s: State, c: Config, e: Event): State
    requires Enabled(s, e)
  {
    match e
    case Asks(now, holder) =>
      var r := TryAcquire(s.breaker, c, now);
      if !r.1 then s
      else State(r.0, s.out[s.issued := if holder then r.2 else None], s.issued + 1)
    case Settles(k, success, now) =>
      var b := if success then RecordSuccess(s.breaker, s.out[k]) else RecordFailure(s.breaker, c, s.out[k], now);
      s.(breaker := b, out := s.out - {k})
  }

  function RunAll(c: Config, events: seq<Event>): Option<State> {
    if events == [] then Some(State(FRESH, map[], 0)) else
    match RunAll(c, events[..|events| - 1])
    case None => None
    case Some(s) => if Enabled(s, events[|events| - 1]) then Some(Next(s, c, events[|events| - 1])) else None
  }

  predicate IsProbe(s: State, k: Command) {
    k in s.out && s.out[k] == Some(s.breaker.generation)
  }

  /** Half-open means a probe is out; open and half-open remember the full count; tickets are held by
      the probe of a half-open breaker and by nobody else. */
  ghost predicate Inv(s: State, c: Config) {
    && (s.breaker.inFlight <==> s.breaker.mode == HalfOpen)
    && (s.breaker.mode != Closed ==> s.breaker.failures == c.threshold)
    && (s.breaker.mode == Closed ==> s.breaker.failures < c.threshold || s.breaker.failures == 0)
    && (forall k :: k in s.out ==> k < s.issued)
    && (forall k :: k in s.out && s.out[k].Some? ==> s.breaker.mode == HalfOpen && IsProbe(s, k))
    && (forall k, m :: IsProbe(s, k) && IsProbe(s, m) ==> k == m)
  }

  lemma InvNext(s: State, c: Config, e: Event)
    requires Inv(s, c) && Enabled(s, e)
    ensures Inv(Next(s, c, e), c)
  {
  }

  lemma {:induction false} RunInv(c: Config, events: seq<Event>, s: State)
    requires RunAll(c, events) == Some(s)
    ensures Inv(s, c)
  {
    if events != [] {
      RunInv(c, events[..|events| - 1], RunAll(c, events[..|events| - 1]).value);
      InvNext(RunAll(c, events[..|events| - 1]).value, c, events[|events| - 1]);
    }
  }

  // ── What every interleaving keeps ──────────────────────────────────────────

  /** At most one probe is ever in flight, and only while half-open. */
  lemma OneProbe(c: Config, events: seq<Event>, s: State, k: Command, m: Command)
    requires RunAll(c, events) == Some(s) && k in s.out && m in s.out && s.out[k].Some? && s.out[m].Some?
    ensures k == m && s.breaker.mode == HalfOpen && s.out[k] == Some(s.breaker.generation)
  {
    RunInv(c, events, s);
    assert IsProbe(s, k) && IsProbe(s, m);
  }

  /** A command goes out if and only if the breaker is closed or its cool-down is over; then it is the probe, and has a
      new ticket if its caller holds one; and nothing else changes. */
  lemma SentExactly(c: Config, events: seq<Event>, s: State, now: int, holder: bool)
    requires RunAll(c, events) == Some(s)
    ensures var n, b := Next(s, c, Asks(now, holder)), s.breaker;
            var over := b.mode == Open && now >= b.openedAt + c.openMs;
            if b.mode == Closed || over then
              && n.issued == s.issued + 1 && n.out.Keys == s.out.Keys + {s.issued}
              && (forall k :: k in s.out ==> n.out[k] == s.out[k])
              && n.out[s.issued] == (if over && holder then Some(b.generation + 1) else None)
              && n.breaker == (if over then b.(mode := HalfOpen, inFlight := true, generation := b.generation + 1)
                 else b)
            else n == s
  {
    RunInv(c, events, s);
  }

  /** The breaker leaves half-open exactly when the current probe settles: closed if it succeeded, open
      with a new cool-down if it failed. */
  lemma LeavesHalfOpenByProbe(c: Config, events: seq<Event>, s: State, e: Event)
    requires RunAll(c, events) == Some(s) && Enabled(s, e) && s.breaker.mode == HalfOpen
    ensures Next(s, c, e).breaker.mode != HalfOpen <==> e.Settles? && IsProbe(s, e.command)
    ensures Next(s, c, e).breaker.mode != HalfOpen ==>
              Next(s, c, e).breaker == if e.success then s.breaker.(mode := Closed, failures := 0, inFlight := false)
                                       else s.breaker.(mode := Open, openedAt := e.now, inFlight := false)
  {
    RunInv(c, events, s);
  }

  /** Stragglers do nothing: while the breaker is not closed, a settle that is not the current probe's
      leaves it exactly as it was, the cool-down included. */
  lemma StragglersIgnored(c: Config, events: seq<Event>, s: State, e: Event)
    requires RunAll(c, events) == Some(s) && Enabled(s, e) && e.Settles? && s.breaker.mode != Closed
             && !IsProbe(s, e.command)
    ensures Next(s, c, e).breaker == s.breaker
  {
    RunInv(c, events, s);
  }

  /** Failed settles since the last successful one. */
  function Streak(events: seq<Event>): nat {
    if events == [] then 0
    else match events[|events| - 1]
      case Asks(_, _) => Streak(events[..|events| - 1])
      case Settles(_, success, _) => if success then 0 else Streak(events[..|events| - 1]) + 1
  }

  /** While closed the counter is the run of failures since the last success; so the breaker opens
      exactly at the settle that makes the run as long as the threshold. */
  lemma {:induction false} CountsConsecutive(c: Config, events: seq<Event>, s: State)
    requires RunAll(c, events) == Some(s)
    ensures s.breaker.mode == Closed ==> s.breaker.failures == Streak(events)
  {
    if events != [] {
      var init := events[..|events| - 1];
      CountsConsecutive(c, init, RunAll(c, init).value);
      RunInv(c, init, RunAll(c, init).value);
    }
  }

  lemma OpensExactly(c: Config, events: seq<Event>, s: State, e: Event)
    requires RunAll(c, events) == Some(s) && Enabled(s, e) && s.breaker.mode == Closed
    ensures Next(s, c, e).breaker.mode == Open <==> e.Settles? && !e.success && Streak(events + [e]) >= c.threshold
    ensures Next(s, c, e).breaker.mode == Open ==> Next(s, c, e).breaker.openedAt == e.now
    ensures Next(s, c, e).breaker.mode != HalfOpen
  {
    CountsConsecutive(c, events, s);
    assert (events + [e])[..|events|] == events;
  }

  // ── Never wedged ───────────────────────────────────────────────────────────

  /** Every caller keeps its ticket. */
  predicate Disciplined(events: seq<Event>) {
    forall i :: 0 <= i < |events| && events[i].Asks? ==> events[i].holder
  }

  lemma {:induction false} ProbeHeld(c: Config, events: seq<Event>, s: State)
    requires RunAll(c, events) == Some(s) && Disciplined(events)
    ensures s.breaker.mode == HalfOpen ==> exists k :: IsProbe(s, k)
  {
    if events != [] {
      var init, e := events[..|events| - 1], events[|events| - 1];
      var before := RunAll(c, init).value;
      assert Disciplined(init);
      ProbeHeld(c, init, before);
      RunInv(c, init, before);
      if s.breaker.mode == HalfOpen {
        if before.breaker.mode == HalfOpen {
          var k :| IsProbe(before, k);
          assert IsProbe(s, k);
        } else {
          assert IsProbe(s, before.issued);
        }
      }
    }
  }

  /** With disciplined callers the breaker is never wedged: half-open, the probe that will move it is
      outstanding; open, the first request after the cool-down becomes the probe; and only then do
      requests pass. */
  lemma NeverWedged(c: Config, events: seq<Event>, s: State, now: int)
    requires RunAll(c, events) == Some(s) && Disciplined(events)
    ensures s.breaker.mode == HalfOpen ==>
              exists k :: IsProbe(s, k) && forall t :: Next(s, c, Settles(k, true, t)).breaker.mode == Closed
                                                       && Next(s, c, Settles(k, false, t)).breaker.mode == Open
    ensures s.breaker.mode == Open ==>
              (now >= s.breaker.openedAt + c.openMs <==> Next(s, c, Asks(now, true)).breaker.mode == HalfOpen)
    ensures TryAcquire(s.breaker, c, now).1 <==> !IsOpen(s.breaker, c, now)
  {
    RunInv(c, events, s);
    ProbeHeld(c, events, s);
    if s.breaker.mode == HalfOpen {
      var k :| IsProbe(s, k);
      assert forall t ::
          Next(s, c, Settles(k, true, t)).breaker.mode == Closed
              && Next(s, c, Settles(k, false, t)).breaker.mode == Open;
    }
  }

  function RunOn(s: State, c: Config, events: seq<Event>): Option<State> {
    if events == [] then Some(s) else
    match RunOn(s, c, events[..|events| - 1])
    case None => None
    case Some(a) => if Enabled(a, events[|events| - 1]) then Some(Next(a, c, events[|events| - 1])) else None
  }

  lemma {:induction false} StuckStays(s: State, c: Config, events: seq<Event>, r: State)
    requires Inv(s, c) && s.breaker.mode == HalfOpen && (forall k :: !IsProbe(s, k)) && RunOn(s, c, events) == Some(r)
    ensures Inv(r, c) && r.breaker == s.breaker && forall k :: !IsProbe(r, k)
  {
    if events != [] {
      var a := RunOn(s, c, events[..|events| - 1]).value;
      StuckStays(s, c, events[..|events| - 1], a);
      InvNext(a, c, events[|events| - 1]);
    }
  }

  ghost predicate Changes(s: State, c: Config, more: seq<Event>) {
    RunOn(s, c, more).Some? && RunOn(s, c, more).value.breaker != s.breaker
  }

  /** A half-open breaker can ever change again exactly when its probe's ticket is still held: without
      it, no continuation of any kind closes it, reopens it or lets a command through. */
  lemma WedgedExactly(c: Config, events: seq<Event>, s: State)
    requires RunAll(c, events) == Some(s) && s.breaker.mode == HalfOpen
    ensures (exists more :: Changes(s, c, more)) <==> exists k :: IsProbe(s, k)
  {
    RunInv(c, events, s);
    if k :| IsProbe(s, k) {
      var e := Settles(k, true, 0);
      assert [e][..0] == [];
      assert Changes(s, c, [e]);
    } else {
      forall more ensures !Changes(s, c, more) {
        if RunOn(s, c, more).Some? { StuckStays(s, c, more, RunOn(s, c, more).value); }
      }
    }
  }

  /** It can happen: `assertClosed` asks without a holder, so once the cool-down is over it claims the
      probe and nobody can settle it. */
  lemma AssertClosedWedges()
    ensures var c := Config(1, 5000);
            var r := RunAll(c, [Asks(0, true), Settles(0, false, 0), Asks(5000, false)]);
            r.Some? && r.value.breaker.mode == HalfOpen && forall k :: !IsProbe(r.value, k)
  {
    var c := Config(1, 5000);
    var e0, e1, e2 := Asks(0, true), Settles(0, false, 0), Asks(5000, false);
    assert [e0][..0] == [] && [e0, e1][..1] == [e0] && [e0, e1, e2][..2] == [e0, e1];
    var s1 := State(FRESH, map[0 := None], 1);
    assert RunAll(c, [e0]) == Some(s1);
    var s2 := State(Breaker(Open, 1, 0, false, 0), map[], 1);
    assert RunAll(c, [e0, e1]) == Some(s2);
    assert RunAll(c, [e0, e1, e2]) == Some(State(Breaker(HalfOpen, 1, 0, true, 1), map[1 := None], 2));
  }
}
