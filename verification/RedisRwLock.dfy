/** The readers-writer lock kept in two Redis keys: a writer flag that may lapse at any moment and a
    set of reader tokens with expiry scores. Scripts are atomic; clients have arbitrary clocks; a call
    that throws may or may not have been applied. */
module RedisRwLock {
  import opened Options

  type Token = nat
  datatype Keys = Keys(writer: Option<Token>, readers: map<Token, int>)

  // ── The seven scripts ──────────────────────────────────────────────────────

  function Reaped(readers: map<Token, int>, now: int): map<Token, int> {
    map t | t in readers && readers[t] > now :: readers[t]
  }

  function AcquireShared(k: Keys, t: Token, now: int, expireAt: int): (Keys, int) {
    var live := Reaped(k.readers, now);
    if k.writer.Some? then (k.(readers := live), 0) else (k.(readers := live[t := expireAt]), 1)
  }

  function ReleaseShared(k: Keys, t: Token): (Keys, int) {
    (k.(readers := k.readers - {t}), if t in k.readers then 1 else 0)
  }

  function RenewShared(k: Keys, t: Token, expireAt: int): (Keys, int) {
    if t in k.readers then (k.(readers := k.readers[t := expireAt]), 1) else (k, 0)
  }

  /** `SET key token PX lease NX`: 1 stands for "OK", 0 for nil. */
  function AcquireFlag(k: Keys, t: Token): (Keys, int) {
    if k.writer.None? then (k.(writer := Some(t)), 1) else (k, 0)
  }

  function CheckDrained(k: Keys, t: Token, now: int): (Keys, int) {
    if k.writer != Some(t) then (k, -1)
    else var live := Reaped(k.readers, now); (k.(readers := live), |live|)
  }

  /** Renewing only moves the expiry, which this model lets come at any time. */
  function RenewFlag(k: Keys, t: Token): (Keys, int) {
    (k, if k.writer == Some(t) then 1 else 0)
  }

  function ReleaseFlag(k: Keys, t: Token): (Keys, int) {
    if k.writer == Some(t) then (k.(writer := None), 1) else (k, 0)
  }

  datatype Script =
    | SharedAcquire(now: int, expireAt: int)
    | SharedRenew(expireAt: int)
    | SharedRelease
    | FlagAcquire
    | DrainCheck(now: int)
    | FlagRenew
    | FlagRelease

  function Eval(k: Keys, t: Token, s: Script): (Keys, int) {
    match s
    case SharedAcquire(now, expireAt) => AcquireShared(k, t, now, expireAt)
    case SharedRenew(expireAt) => RenewShared(k, t, expireAt)
    case SharedRelease => ReleaseShared(k, t)
    case FlagAcquire => AcquireFlag(k, t)
    case DrainCheck(now) => CheckDrained(k, t, now)
    case FlagRenew => RenewFlag(k, t)
    case FlagRelease => ReleaseFlag(k, t)
  }

  /** The server, one Redis command after another. */
  class Server {
    var writer: Option<Token>
    var readers: map<Token, int>

    function Value(): Keys
      reads this
    {
      Keys(writer, readers)
    }

    constructor ()
      ensures Value() == Keys(None, map[])
    {
      writer, readers := None, map[];
    }

    method RemoveByScore(now: int)
      modifies this`readers
      ensures readers == Reaped(old(readers), now)
    {
      var todo := readers.Keys;
      while todo != {}
        invariant todo <= old(readers).Keys && readers.Keys <= old(readers).Keys
        invariant forall t :: t in todo ==> t in readers
        invariant forall t :: t in readers ==> readers[t] == old(readers)[t] && (t in todo || readers[t] > now)
        invariant forall t :: t in old(readers) && t !in readers ==> old(readers)[t] <= now
        decreases |todo|
      {
        var t :| t in todo;
        if readers[t] <= now { readers := readers - {t}; }
        todo := todo - {t};
      }
    }

    method Execute(t: Token, s: Script) returns (reply: int)
      modifies this
      ensures (Value(), reply) == Eval(old(Value()), t, s)
    {
      match s
      case SharedAcquire(now, expireAt) =>
        RemoveByScore(now);
        if writer.Some? { return 0; }
        readers := readers[t := expireAt];
        return 1;
      case SharedRenew(expireAt) =>
        if t in readers {
          readers := readers[t := expireAt];
          return 1;
        }
        return 0;
      case SharedRelease =>
        reply := if t in readers then 1 else 0;
        readers := readers - {t};
      case FlagAcquire =>
        if writer.Some? { return 0; }
        writer := Some(t);
        return 1;
      case DrainCheck(now) =>
        if writer != Some(t) { return -1; }
        RemoveByScore(now);
        return |readers|;
      case FlagRenew =>
        return if writer == Some(t) then 1 else 0;
      case FlagRelease =>
        if writer == Some(t) {
          writer := None;
          return 1;
        }
        return 0;
    }
  }

  // ── The clients ────────────────────────────────────────────────────────────

  /** Where a client is in `runShared` or `runExclusive`; every call has a token of its own. */
  datatype Phase = WantsShared | Reading | WantsFlag | Draining | Inside | Ended

  /** `answers` has the last answer each client received. */
  datatype State = State(keys: Keys, phases: map<Token, Phase>, answers: map<Token, int>)

  /** A script call and its fate: not applied, applied with the reply lost, or answered. */
  datatype Fate = Dropped | Unanswered | Answered
  datatype Event = Joins(t: Token, exclusive: bool) | Calls(t: Token, s: Script,
      fate: Fate) | Lapses | GivesUp(t: Token)

  predicate MayCall(p: Phase, s: Script) {
    match s
    case SharedAcquire(_, _) => p == WantsShared
    case SharedRenew(_) => p == Reading
    case SharedRelease => p == Reading || p == Ended
    case FlagAcquire => p == WantsFlag
    case DrainCheck(_) => p == Draining
    case FlagRenew => p == Draining || p == Inside
    case FlagRelease => p == Draining || p == Inside || p == Ended
  }

  predicate Enabled(s: State, e: Event) {
    match e
    case Joins(t, _) => t !in s.phases && t !in s.keys.readers && s.keys.writer != Some(t)
    case Calls(t, script, _) => t in s.phases && MayCall(s.phases[t], script)
    case Lapses => true
    case GivesUp(t) => t in s.phases
  }

  /** A client that releases has left the section, whatever becomes of the call. */
  function Sends(p: Phase, s: Script): Phase {
    if s.SharedRelease? || s.FlagRelease? then Ended else p
  }

  /** What an answer moves a client to. */
  function Moves(p: Phase, s: Script, reply: int): Phase {
    match s
    case SharedAcquire(_, _) => if reply == 1 then Reading else p
    case FlagAcquire => if reply == 1 then Draining else p
    case DrainCheck(_) => if reply == 0 then Inside else if reply == -1 then Ended else p
    case _ => Sends(p, s)
  }

  function Next(s: State, e: Event): State
    requires Enabled(s, e)
  {
    match e
    case Joins(t, exclusive) => s.(phases := s.phases[t := if exclusive then WantsFlag else WantsShared])
    case Lapses => s.(keys := s.keys.(writer := None))
    case GivesUp(t) => s.(phases := s.phases[t := Ended])
    case Calls(t, script, fate) =>
      var r := Eval(s.keys, t, script);
      var sent := s.(phases := s.phases[t := Sends(s.phases[t], script)]);
      match fate
      case Dropped => sent
      case Unanswered => sent.(keys := r.0)
      case Answered => State(r.0, s.phases[t := Moves(s.phases[t], script, r.1)], s.answers[t := r.1])
  }

  // ── Safety ─────────────────────────────────────────────────────────────────

  /** The flag is held by a writer that finished draining. */
  predicate Owned(s: State) {
    s.keys.writer.Some? && s.keys.writer.value in s.phases && s.phases[s.keys.writer.value] == Inside
  }

  /** While a writer that finished draining still owns the flag, there is no reader. */
  ghost predicate Exclusive(s: State) {
    Owned(s) ==> s.keys.readers == map[]
  }

  /** Tokens in the keys belong to clients on that side of the lock. */
  ghost predicate OwnTokens(s: State) {
    && (s.keys.writer.Some? ==>
       s.keys.writer.value in s.phases && s.phases[s.keys.writer.value] !in {WantsShared, Reading})
    && (forall t :: t in s.keys.readers ==> t in s.phases && s.phases[t] !in {WantsFlag, Draining, Inside})
  }

  ghost predicate Inv(s: State) {
    Exclusive(s) && OwnTokens(s)
  }

  lemma CallKeepsExclusive(s: State, t: Token, script: Script, fate: Fate)
    requires Inv(s) && Enabled(s, Calls(t, script, fate))
    ensures Exclusive(Next(s, Calls(t, script, fate)))
  {
    var n := Next(s, Calls(t, script, fate));
    if Owned(n) && !Owned(s) && script.DrainCheck? { assert n.keys.readers == map[]; }
  }

  lemma CallKeepsTokens(s: State, t: Token, script: Script, fate: Fate)
    requires OwnTokens(s) && Enabled(s, Calls(t, script, fate))
    ensures OwnTokens(Next(s, Calls(t, script, fate)))
  {
    var n := Next(s, Calls(t, script, fate));
    forall u | u in n.keys.readers ensures u in n.phases && n.phases[u] !in {WantsFlag, Draining, Inside} {
      assert u in s.keys.readers || (u == t && s.phases[t] == WantsShared);
    }
  }

  lemma InvNext(s: State, e: Event)
    requires Inv(s) && Enabled(s, e)
    ensures Inv(Next(s, e))
  {
    if e.Calls? {
      CallKeepsExclusive(s, e.t, e.s, e.fate);
      CallKeepsTokens(s, e.t, e.s, e.fate);
    }
  }

  /** The state after a run, when every event was enabled as it came. */
  function RunAll(s: State, events: seq<Event>): Option<State> {
    if events == [] then Some(s) else
    match RunAll(s, events[..|events| - 1])
    case None => None
    case Some(a) => if Enabled(a, events[|events| - 1]) then Some(Next(a, events[|events| - 1])) else None
  }

  /** In every run: a reader and a writer inside never both hold their keys. */
  lemma {:induction false} WriterExcludesReaders(s: State, events: seq<Event>, r: State)
    requires s.keys == Keys(None, map[]) && s.phases == map[] && RunAll(s, events) == Some(r)
    ensures Inv(r)
    ensures forall w, t :: w in r.phases && r.phases[w] == Inside && r.keys.writer == Some(w) ==> t !in r.keys.readers
  {
    if events != [] {
      var init := events[..|events| - 1];
      WriterExcludesReaders(s, init, RunAll(s, init).value);
      InvNext(RunAll(s, init).value, events[|events| - 1]);
    }
  }

  /** A client past its acquire that has lost its key. */
  predicate LostReader(s: State, t: Token) {
    t in s.phases && s.phases[t] in {Reading, Ended} && t !in s.keys.readers
  }

  predicate LostWriter(s: State, t: Token) {
    t in s.phases && s.phases[t] in {Draining, Inside, Ended} && s.keys.writer != Some(t)
  }

  /** Once gone, gone for good: no renewal, late call or retry brings back a reaped reader or a lapsed
      flag, in any continuation. */
  lemma {:induction false} NeverRevived(s: State, events: seq<Event>, r: State, t: Token)
    requires RunAll(s, events) == Some(r)
    ensures LostReader(s, t) ==> LostReader(r, t)
    ensures LostWriter(s, t) ==> LostWriter(r, t)
  {
    if events != [] { NeverRevived(s, events[..|events| - 1], RunAll(s, events[..|events| - 1]).value, t); }
  }

  /** Only its owner, or its lapse, takes the flag away: a call of one client never removes the flag of
      another, and never a reader that has not expired by the caller's clock. */
  lemma NobodyElses(s: State, e: Event, owner: Token)
    requires Enabled(s, e) && e.Calls? && e.t != owner
    ensures s.keys.writer == Some(owner) ==> Next(s, e).keys.writer == Some(owner)
    ensures owner in s.keys.readers && owner !in Next(s, e).keys.readers ==>
              (e.s.SharedAcquire? || e.s.DrainCheck?) && s.keys.readers[owner] <= e.s.now
  {
  }

  /** A heartbeat answer of 0 is final: the lock is lost then and ever after. */
  lemma HeartbeatZeroIsFinal(s: State, t: Token, script: Script, events: seq<Event>, r: State)
    requires Enabled(s, Calls(t, script, Answered)) && (script.FlagRenew? || script.SharedRenew?)
    requires Eval(s.keys, t, script).1 == 0
    requires RunAll(Next(s, Calls(t, script, Answered)), events) == Some(r)
    ensures if script.FlagRenew? then LostWriter(r, t) else LostReader(r, t)
  {
    NeverRevived(Next(s, Calls(t, script, Answered)), events, r, t);
  }

  // ── What an answer means ───────────────────────────────────────────────────

  /** A shared acquire lets its client read if and only if nobody held the flag; then the token is among the
      readers until its expiry. Either way expired readers are gone and all others stay. */
  lemma SharedGrantedExactly(s: State, t: Token, now: int, expireAt: int)
    requires Enabled(s, Calls(t, SharedAcquire(now, expireAt), Answered))
    ensures var n := Next(s, Calls(t, SharedAcquire(now, expireAt), Answered));
            && n.phases == s.phases[t := if s.keys.writer.None? then Reading else WantsShared]
            && n.keys.writer == s.keys.writer
            && (s.keys.writer.None? ==> t in n.keys.readers && n.keys.readers[t] == expireAt)
            && forall u :: u != t || s.keys.writer.Some? ==>
                 && (u in n.keys.readers <==> u in s.keys.readers && s.keys.readers[u] > now)
                 && (u in n.keys.readers ==> n.keys.readers[u] == s.keys.readers[u])
  {
  }

  /** A flag acquire starts its client draining if and only if the flag was free, and then the client holds it. */
  lemma FlagGrantedExactly(s: State, t: Token)
    requires Enabled(s, Calls(t, FlagAcquire, Answered))
    ensures var n := Next(s, Calls(t, FlagAcquire, Answered));
            && n.phases == s.phases[t := if s.keys.writer.None? then Draining else WantsFlag]
            && n.keys.writer == (if s.keys.writer.None? then Some(t) else s.keys.writer)
            && n.keys.readers == s.keys.readers
  {
  }

  /** A drain check lets the writer in if and only if it still holds the flag and every reader has expired; it gives
      up if and only if the flag is not its own any more. */
  lemma DrainedExactly(s: State, t: Token, now: int)
    requires Enabled(s, Calls(t, DrainCheck(now), Answered))
    ensures var n := Next(s, Calls(t, DrainCheck(now), Answered));
            && (n.phases[t] == Inside <==>
                  s.keys.writer == Some(t) && forall u :: u in s.keys.readers ==> s.keys.readers[u] <= now)
            && (n.phases[t] == Ended <==> s.keys.writer != Some(t))
            && n.phases[t] in {Inside, Ended, Draining} && n.keys.writer == s.keys.writer
            && (forall u :: u in n.keys.readers <==>
                  u in s.keys.readers && (s.keys.writer == Some(t) ==> s.keys.readers[u] > now))
            && (forall u :: u in n.keys.readers ==> n.keys.readers[u] == s.keys.readers[u])
            && (forall u :: u in s.phases && u != t ==> n.phases[u] == s.phases[u])
  {
    var live := Reaped(s.keys.readers, now);
    if |live| == 0 {
      forall u | u in s.keys.readers ensures s.keys.readers[u] <= now { assert u !in live; }
    } else {
      assert live != map[];
      var u :| u in live;
    }
  }

  /** A renewal is answered 1 if and only if the key is still held, and 0 otherwise; it moves that reader's expiry
      and nothing else. */
  lemma RenewedExactly(s: State, t: Token, script: Script)
    requires Enabled(s, Calls(t, script, Answered)) && (script.SharedRenew? || script.FlagRenew?)
    ensures var n := Next(s, Calls(t, script, Answered));
            var held := if script.SharedRenew? then t in s.keys.readers else s.keys.writer == Some(t);
            && t in n.answers && n.answers[t] == (if held then 1 else 0) && n.phases == s.phases
            && n.keys.writer == s.keys.writer && n.keys.readers.Keys == s.keys.readers.Keys
            && (forall u :: u in s.keys.readers && (u != t || script.FlagRenew?) ==>
                  n.keys.readers[u] == s.keys.readers[u])
            && (script.SharedRenew? && held ==> n.keys.readers[t] == script.expireAt)
  {
  }

  /** After a release that was applied, answered or not, the caller's key is gone, and no other key has changed. */
  lemma ReleasedExactly(s: State, t: Token, script: Script, fate: Fate)
    requires Enabled(s, Calls(t, script, fate)) && (script.SharedRelease? || script.FlagRelease?) && !fate.Dropped?
    ensures var n := Next(s, Calls(t, script, fate));
            && n.phases == s.phases[t := Ended]
            && (if script.SharedRelease? then n.keys == s.keys.(readers := s.keys.readers - {t})
                else n.keys.readers == s.keys.readers
                     && n.keys.writer == if s.keys.writer == Some(t) then None else s.keys.writer)
            && (fate.Answered? ==>
                  t in n.answers && n.answers[t]
                      == (if script.SharedRelease? then (if t in s.keys.readers then 1 else 0)
                                    else if s.keys.writer == Some(t) then 1 else 0))
  {
  }

  /** What a call does to the keys does not depend on whether its answer arrives, and a call that never arrives does
      nothing to them. */
  lemma FateOfCalls(s: State, t: Token, script: Script)
    requires Enabled(s, Calls(t, script, Answered))
    ensures Next(s, Calls(t, script, Unanswered)).keys == Next(s, Calls(t, script, Answered)).keys
    ensures Next(s, Calls(t, script, Dropped)).keys == s.keys
    ensures forall fate: Fate :: !fate.Answered? ==>
              Next(s, Calls(t, script, fate)).phases ==
              s.phases[t := if script.SharedRelease? || script.FlagRelease? then Ended else s.phases[t]]
              && Next(s, Calls(t, script, fate)).answers == s.answers
  {
  }

  // ── Clients that believe they hold the lock ────────────────────────────────

  /** Before event `k` of the run the client reads and its key is there, and the event removes it as expired. */
  ghost predicate ReapedAt(s: State, events: seq<Event>, k: nat, t: Token)
    requires k < |events|
  {
    && RunAll(s, events[..k]).Some?
    && var a := RunAll(s, events[..k]).value;
    && t in a.phases && a.phases[t] == Reading && t in a.keys.readers
    && events[k].Calls? && events[k].t != t && !events[k].fate.Dropped?
    && (events[k].s.SharedAcquire? || events[k].s.DrainCheck?) && a.keys.readers[t] <= events[k].s.now
  }

  /** Before event `k` of the run the client holds the flag, and at the event it lapses. */
  ghost predicate LapsedAt(s: State, events: seq<Event>, k: nat, t: Token)
    requires k < |events|
  {
    && RunAll(s, events[..k]).Some? && events[k].Lapses?
    && var a := RunAll(s, events[..k]).value;
    && t in a.phases && a.phases[t] in {Draining, Inside} && a.keys.writer == Some(t)
  }

  ghost predicate WasReaped(s: State, events: seq<Event>, t: Token) {
    exists k :: 0 <= k < |events| && ReapedAt(s, events, k, t)
  }

  ghost predicate HasLapsed(s: State, events: seq<Event>, t: Token) {
    exists k :: 0 <= k < |events| && LapsedAt(s, events, k, t)
  }

  lemma LossRemembered(s: State, init: seq<Event>, e: Event, t: Token)
    ensures WasReaped(s, init, t) ==> WasReaped(s, init + [e], t)
    ensures HasLapsed(s, init, t) ==> HasLapsed(s, init + [e], t)
  {
    var events := init + [e];
    if k :| 0 <= k < |init| && ReapedAt(s, init, k, t) {
      assert events[..k] == init[..k];
      assert ReapedAt(s, events, k, t);
    }
    if k :| 0 <= k < |init| && LapsedAt(s, init, k, t) {
      assert events[..k] == init[..k];
      assert LapsedAt(s, events, k, t);
    }
  }

  /** How the key of a client past its acquire can go in one step. */
  lemma KeyGoes(s: State, e: Event, t: Token)
    requires Enabled(s, e) && t in Next(s, e).phases
    ensures Next(s, e).phases[t] == Reading && t !in Next(s, e).keys.readers ==>
              && t in s.phases && s.phases[t] == Reading
              && (t in s.keys.readers ==>
                    && e.Calls? && e.t != t && !e.fate.Dropped? && (e.s.SharedAcquire? || e.s.DrainCheck?)
                    && s.keys.readers[t] <= e.s.now)
    ensures Next(s, e).phases[t] in {Draining, Inside} && Next(s, e).keys.writer != Some(t) ==>
              && t in s.phases && s.phases[t] in {Draining, Inside} && (s.keys.writer == Some(t) ==> e.Lapses?)
  {
  }

  /** In every run: a client that reads without its key had it, until it was reaped as expired; a writer past its flag
      acquire that does not hold the flag held it, until it lapsed. */
  lemma {:induction false} KeysAreLost(s: State, events: seq<Event>, r: State, t: Token)
    requires s.keys == Keys(None, map[]) && s.phases == map[] && RunAll(s, events) == Some(r) && t in r.phases
    ensures r.phases[t] == Reading && t !in r.keys.readers ==> WasReaped(s, events, t)
    ensures r.phases[t] in {Draining, Inside} && r.keys.writer != Some(t) ==> HasLapsed(s, events, t)
    decreases |events|
  {
    if events != [] {
      var n := |events| - 1;
      var init, e := events[..n], events[n];
      var a := RunAll(s, init).value;
      assert events == init + [e];
      KeyGoes(a, e, t);
      if t in a.phases {
        KeysAreLost(s, init, a, t);
        LossRemembered(s, init, e, t);
      }
      hide Next, Enabled;
      if ReapedAt(s, events, n, t) { assert WasReaped(s, events, t); }
      if LapsedAt(s, events, n, t) { assert HasLapsed(s, events, t); }
    }
  }

  /** In every run a client that reads and a writer inside coexist only if the reader's key has expired and was reaped,
      or the writer's flag has lapsed, since it was granted. */
  lemma TogetherOnlyAfterLoss(s: State, events: seq<Event>, r: State, t: Token, w: Token)
    requires s.keys == Keys(None, map[]) && s.phases == map[] && RunAll(s, events) == Some(r)
    requires t in r.phases && r.phases[t] == Reading && w in r.phases && r.phases[w] == Inside
    ensures WasReaped(s, events, t) || HasLapsed(s, events, w)
  {
    WriterExcludesReaders(s, events, r);
    hide WasReaped, HasLapsed, RunAll;
    KeysAreLost(s, events, r, t);
    KeysAreLost(s, events, r, w);
  }

  // ── Two short runs ─────────────────────────────────────────────────────────

  const EMPTY := State(Keys(None, map[]), map[], map[])

  lemma RunsOn(s: State, events: seq<Event>, a: State, e: Event)
    requires RunAll(s, events) == Some(a) && Enabled(a, e)
    ensures RunAll(s, events + [e]) == Some(Next(a, e))
  {
    assert (events + [e])[..|events|] == events;
  }

  const WAITING := State(Keys(None, map[]), map[0 := WantsFlag], map[])
  const FLAGGED := State(Keys(Some(0), map[]), map[0 := Draining], map[0 := 1])
  const INSIDE := State(Keys(Some(0), map[]), map[0 := Inside], map[0 := 0])
  const ENTERS := [Joins(0, true)] + [Calls(0, FlagAcquire, Answered)] + [Calls(0, DrainCheck(5), Answered)]

  lemma WriterGoesIn()
    ensures RunAll(EMPTY, ENTERS) == Some(INSIDE)
  {
    var none: seq<Event> := [];
    assert RunAll(EMPTY, none) == Some(EMPTY);
    assert Next(EMPTY, Joins(0, true)) == WAITING;
    assert Next(WAITING, Calls(0, FlagAcquire, Answered)) == FLAGGED;
    assert Reaped(map[], 5) == map[];
    assert Next(FLAGGED, Calls(0, DrainCheck(5), Answered)) == INSIDE;
    hide RunAll, Next;
    RunsOn(EMPTY, none, EMPTY, Joins(0, true));
    assert none + [Joins(0, true)] == [Joins(0, true)];
    RunsOn(EMPTY, [Joins(0, true)], WAITING, Calls(0, FlagAcquire, Answered));
    RunsOn(EMPTY, [Joins(0, true)] + [Calls(0, FlagAcquire, Answered)], FLAGGED, Calls(0, DrainCheck(5), Answered));
  }

  const JOINED := INSIDE.(phases := map[0 := Inside, 1 := WantsShared])
  const REFUSED := JOINED.(answers := map[0 := 0, 1 := 0])
  const RENEWED := JOINED.(answers := map[0 := 1, 1 := 0])
  const LEFT := State(Keys(None, map[]), map[0 := Ended, 1 := WantsShared], map[0 := 1, 1 := 0])
  const READS := State(Keys(None, map[1 := 70]), map[0 := Ended, 1 := Reading], map[0 := 1, 1 := 1])
  const ASKS := ENTERS + [Joins(1, false)] + [Calls(1, SharedAcquire(6, 60), Answered)]
  const LEAVES := ASKS + [Calls(0, FlagRenew, Answered)] + [Calls(0, FlagRelease, Answered)]

  lemma ReaderAsks()
    ensures RunAll(EMPTY, ASKS) == Some(REFUSED)
  {
    WriterGoesIn();
    assert Next(INSIDE, Joins(1, false)) == JOINED;
    assert Reaped(map[], 6) == map[];
    assert Next(JOINED, Calls(1, SharedAcquire(6, 60), Answered)) == REFUSED;
    hide RunAll, Next;
    RunsOn(EMPTY, ENTERS, INSIDE, Joins(1, false));
    RunsOn(EMPTY, ENTERS + [Joins(1, false)], JOINED, Calls(1, SharedAcquire(6, 60), Answered));
  }

  lemma WriterLeaves()
    ensures RunAll(EMPTY, LEAVES) == Some(LEFT)
  {
    ReaderAsks();
    assert Next(REFUSED, Calls(0, FlagRenew, Answered)) == RENEWED;
    assert Next(RENEWED, Calls(0, FlagRelease, Answered)) == LEFT;
    hide RunAll, Next;
    RunsOn(EMPTY, ASKS, REFUSED, Calls(0, FlagRenew, Answered));
    RunsOn(EMPTY, ASKS + [Calls(0, FlagRenew, Answered)], RENEWED, Calls(0, FlagRelease, Answered));
  }

  /** A reader that comes while a writer is inside waits until the writer has released, then reads. */
  lemma ReaderWaitsForWriter()
    ensures RunAll(EMPTY, ASKS) == Some(REFUSED) && REFUSED.phases == map[0 := Inside, 1 := WantsShared]
    ensures RunAll(EMPTY, LEAVES + [Calls(1, SharedAcquire(7, 70), Answered)]) == Some(READS)
    ensures READS.phases[1] == Reading && READS.keys == Keys(None, map[1 := 70])
  {
    ReaderAsks();
    WriterLeaves();
    assert Reaped(map[], 7) == map[];
    assert Next(LEFT, Calls(1, SharedAcquire(7, 70), Answered)) == READS;
    hide RunAll, Next;
    RunsOn(EMPTY, LEAVES, LEFT, Calls(1, SharedAcquire(7, 70), Answered));
  }

  /** When the flag lapses, a reader and a writer that both believe they hold the lock do coexist. */
  lemma TogetherAfterLapse()
    ensures var r := RunAll(EMPTY, ENTERS + [Lapses] + [Joins(1, false)] + [Calls(1, SharedAcquire(6, 60), Answered)]);
            r.Some? && r.value.phases == map[0 := Inside, 1 := Reading]
  {
    WriterGoesIn();
    var lapsed := INSIDE.(keys := Keys(None, map[]));
    var joined := lapsed.(phases := map[0 := Inside, 1 := WantsShared]);
    assert Next(INSIDE, Lapses) == lapsed && Next(lapsed, Joins(1, false)) == joined;
    assert Next(joined, Calls(1, SharedAcquire(6, 60), Answered)).phases == map[0 := Inside, 1 := Reading];
    hide RunAll, Next;
    RunsOn(EMPTY, ENTERS, INSIDE, Lapses);
    RunsOn(EMPTY, ENTERS + [Lapses], lapsed, Joins(1, false));
    RunsOn(EMPTY, ENTERS + [Lapses] + [Joins(1, false)], joined, Calls(1, SharedAcquire(6, 60), Answered));
  }
}
