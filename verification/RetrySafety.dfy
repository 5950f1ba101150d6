/** What a client may be told after a worker died or a lease was lost. Once a script was dispatched,
    "nothing was applied, retry" must not be the answer any more. */
module RetrySafety {
  import opened Options

  type Code = string

  const OUTCOME_UNKNOWN := "EEXEC_OUTCOME_UNKNOWN"
  const WORKER_UNAVAILABLE := "EWORKER_UNAVAILABLE"
  const LOCK_LOST := "ELOCKLOST"
  const LOCK_LOST_APPLIED := "ELOCKLOST_APPLIED"
  const RUNTIME_BUSY := "ERUNTIME_BUSY"
  const COHERENCE := "ECOHERENCE"
  const DRIVER_FAULT := "EDRIVERFAULT"
  const ABORTED := "ABORTED"

  // ── Classification of codes ────────────────────────────────────────────────

  predicate SqlStateChar(c: char) {
    '0' <= c <= '9' || 'A' <= c <= 'Z'
  }

  /** SQLSTATE class 08, connection exception. */
  predicate ConnectionException(code: Code) {
    |code| == 5 && code[0] == '0' && code[1] == '8' && forall i :: 2 <= i < 5 ==> SqlStateChar(code[i])
  }

  predicate PreservesAmbiguousOutcome(code: Code) {
    ConnectionException(code) || code in {OUTCOME_UNKNOWN, COHERENCE, LOCK_LOST_APPLIED, DRIVER_FAULT}
  }

  const RETRY_SAFE: set<Code> := {
    "ESESSIONCLOSING", "ESHUTTINGDOWN", "ELOCKTIMEOUT", LOCK_LOST, "ECOHERENCE_UNAPPLIED", RUNTIME_BUSY,
    "EWORKER_BUSY", WORKER_UNAVAILABLE}
  const RETRYABLE_SQLSTATES: set<Code> := {"53300", "53400", "57P03"}

  predicate Retryable(code: Code) {
    code in RETRY_SAFE || code in RETRYABLE_SQLSTATES
  }

  /** No code says both "may have been applied" and "retry". */
  lemma AmbiguousIsNotRetryable(code: Code)
    requires PreservesAmbiguousOutcome(code)
    ensures !Retryable(code)
  {
    if ConnectionException(code) { assert code[0] == '0'; }
    assert "53300"[0] == '5' && "53400"[0] == '5' && "57P03"[0] == '5';
    assert "EWORKER_BUSY"[0] == 'E' && WORKER_UNAVAILABLE[0] == 'E' && LOCK_LOST[0] == 'E' && RUNTIME_BUSY[0] == 'E';
    assert |OUTCOME_UNKNOWN| == 21 && |COHERENCE| == 10 && |LOCK_LOST_APPLIED| == 17 && |DRIVER_FAULT| == 12;
    assert "EWORKER_BUSY"[1] == 'W' && DRIVER_FAULT[1] == 'D' && COHERENCE[1] == 'C' && "ELOCKTIMEOUT"[1] == 'L';
    assert "ECOHERENCE_UNAPPLIED"[10] == '_';
  }

  const DIGITS_AND_CAPITALS := "0123456789ABCDEFGHIJKLMNOPQRSTUVWXYZ"

  lemma CharsOfSqlState(c: char)
    ensures SqlStateChar(c) <==> c in DIGITS_AND_CAPITALS
  {
    var s := DIGITS_AND_CAPITALS;
    forall i | 0 <= i < |s| ensures SqlStateChar(s[i]) {}
    if '0' <= c <= '9' { assert s[c as int - '0' as int] == c; }
    if 'A' <= c <= 'Z' { assert s[c as int - 'A' as int + 10] == c; }
  }

  /** The codes, one by one: a connection exception is a five-character SQLSTATE of class 08. */
  lemma CodesExactly(code: Code)
    ensures PreservesAmbiguousOutcome(code) <==>
              || code in {"EEXEC_OUTCOME_UNKNOWN", "ECOHERENCE", "ELOCKLOST_APPLIED", "EDRIVERFAULT"}
              || (|code| == 5 && code[..2] == "08" && forall i :: 2 <= i < 5 ==> code[i] in DIGITS_AND_CAPITALS)
    ensures Retryable(code) <==>
              code in {"ESESSIONCLOSING", "ESHUTTINGDOWN", "ELOCKTIMEOUT", "ELOCKLOST", "ECOHERENCE_UNAPPLIED",
                       "ERUNTIME_BUSY", "EWORKER_BUSY", "EWORKER_UNAVAILABLE", "53300", "53400", "57P03"}
  {
    if |code| == 5 {
      CharsOfSqlState(code[2]);
      CharsOfSqlState(code[3]);
      CharsOfSqlState(code[4]);
      assert code[..2] == [code[0], code[1]];
    }
  }

  // ── Commands and their effects ─────────────────────────────────────────────

  datatype Command =
    | Attach(openExisting: bool)
    | Exec
    | WriteFile | AppendFile | Mkdir | CreateExclusive | Rm | Cp | Mv | Chmod | Symlink | Link | Utimes | BulkIngest
    | BeginScope | EndScope | AbortScope
    | ReadFile | ReadFileBuffer | ReadFileBytes | Exists | Stat | Readdir | ReaddirWithFileTypes | Readlink | Lstat
    | Realpath | ListPaths | Reload | Fresh | Runtime | Disconnect | ClearDirty | Shutdown

  predicate MayApply(c: Command) {
    match c
    case Attach(openExisting) => !openExisting
    case Exec => true
    case WriteFile => true
    case AppendFile => true
    case Mkdir => true
    case CreateExclusive => true
    case Rm => true
    case Cp => true
    case Mv => true
    case Chmod => true
    case Symlink => true
    case Link => true
    case Utimes => true
    case BulkIngest => true
    case EndScope => true
    case _ => false
  }

  datatype Flags = Flags(mayHaveEffects: bool, creatingAttach: bool, exec: bool, committedWrite: bool, scopeOpen: bool)

  function Dispatched(f: Flags, c: Command): Flags {
    f.(mayHaveEffects := f.mayHaveEffects || MayApply(c),
       creatingAttach := f.creatingAttach || (c.Attach? && MayApply(c)),
       exec := f.exec || c.Exec?)
  }

  function Acknowledged(f: Flags, c: Command, readOnly: bool): Flags {
    var open := if c.BeginScope? then true else if c.EndScope? || c.AbortScope? then false else f.scopeOpen;
    f.(scopeOpen := open, committedWrite := f.committedWrite || (MayApply(c) && !c.Exec? && !open && !readOnly))
  }

  function TransportFailure(f: Flags, code: Code): Code {
    if f.mayHaveEffects && code == WORKER_UNAVAILABLE then OUTCOME_UNKNOWN else code
  }

  function LeaseLoss(f: Flags, error: Option<Code>): Option<Code> {
    if !f.exec && !f.committedWrite && !f.creatingAttach then None
    else if error.Some? && PreservesAmbiguousOutcome(error.value) then error
    else Some(OUTCOME_UNKNOWN)
  }

  function RuntimeFailure(f: Flags, code: Code): Code {
    if code == COHERENCE && f.exec then OUTCOME_UNKNOWN
    else if code == RUNTIME_BUSY && (f.exec || f.committedWrite) then OUTCOME_UNKNOWN
    else code
  }

  class RequestOutcome {
    var mayHaveEffects: bool
    var creatingAttachDispatched: bool
    var execDispatched: bool
    var committedFsWrite: bool
    var scopeOpen: bool

    function Value(): Flags
      reads this
    {
      Flags(mayHaveEffects, creatingAttachDispatched, execDispatched, committedFsWrite, scopeOpen)
    }

    constructor ()
      ensures Value() == Flags(false, false, false, false, false)
    {
      mayHaveEffects, creatingAttachDispatched, execDispatched, committedFsWrite, scopeOpen := false, false, false,
          false, false;
    }

    method OnDispatched(c: Command)
      modifies this
      ensures Value() == Dispatched(old(Value()), c)
    {
      if MayApply(c) { mayHaveEffects := true; }
      if c.Attach? && MayApply(c) { creatingAttachDispatched := true; }
      if c.Exec? { execDispatched := true; }
    }

    method OnAcknowledged(c: Command, readOnly: bool)
      modifies this
      ensures Value() == Acknowledged(old(Value()), c, readOnly)
    {
      if c.BeginScope? { scopeOpen := true; }
      if c.EndScope? || c.AbortScope? { scopeOpen := false; }
      if MayApply(c) && !c.Exec? && !scopeOpen && !readOnly { committedFsWrite := true; }
    }
  }

  // ── The worker thread ──────────────────────────────────────────────────────

  function DeathCode(safeToRetry: bool): Code {
    if safeToRetry then WORKER_UNAVAILABLE else OUTCOME_UNKNOWN
  }

  /** Requests in flight. Every id handed out is pending or settled, never both and never twice. */
  class OwnerThread {
    var dead: bool
    var sequence: nat
    var pending: map<nat, bool>
    ghost var settled: map<nat, Option<Code>>

    ghost predicate Valid()
      reads this
    {
      && pending.Keys !! settled.Keys
      && (forall id :: id in pending || id in settled <==> 1 <= id <= sequence)
      && (dead ==> pending == map[])
    }

    constructor ()
      ensures Valid() && !dead && pending == map[] && settled == map[]
    {
      dead, sequence, pending, settled := false, 0, map[], map[];
    }

    method Request(c: Command) returns (r: Option<nat>)
      requires Valid()
      modifies this
      ensures Valid() && dead == old(dead) && settled == old(settled) && (r.None? <==> dead)
      ensures r.None? ==> pending == old(pending)
      ensures r.Some? ==> r.value == old(sequence) + 1 && pending == old(pending)[r.value := !MayApply(c)]
    {
      if dead { return None; }
      sequence := sequence + 1;
      pending := pending[sequence := !MayApply(c)];
      return Some(sequence);
    }

    /** A reply to a request that is no longer pending is dropped. */
    method Reply(id: nat)
      requires Valid()
      modifies this
      ensures Valid() && dead == old(dead) && pending == old(pending) - {id}
      ensures settled == if id in old(pending) then old(settled)[id := None] else old(settled)
    {
      if id !in pending { return; }
      pending := pending - {id};
      settled := settled[id := None];
    }

    /** Death rejects every waiter, saying "not applied" only to those whose command cannot apply. */
    method Fail()
      requires Valid()
      modifies this
      ensures Valid() && dead && pending == map[]
      ensures settled == old(settled) + Deaths(old(pending), {})
    {
      if dead {
        assert settled == settled + Deaths(map[], {});
        return;
      }
      RejectAll();
      assert Deaths(pending, {}).Keys == pending.Keys;
      dead, pending := true, map[];
    }

    method RejectAll()
      requires pending.Keys !! settled.Keys
      modifies this`settled
      ensures settled == old(settled) + Deaths(pending, {})
    {
      var todo := pending.Keys;
      DeathsNone(pending, settled);
      hide Deaths;
      while todo != {}
        invariant todo <= pending.Keys
        invariant settled == old(settled) + Deaths(pending, todo)
        decreases |todo|
      {
        var id :| id in todo;
        DeathsStep(pending, todo, id, old(settled));
        settled := settled[id := Some(DeathCode(pending[id]))];
        todo := todo - {id};
      }
    }
  }

  /** The rejections of all waiters but those still to do. */
  function Deaths(pending: map<nat, bool>, todo: set<nat>): map<nat, Option<Code>> {
    map id | id in pending && id !in todo :: Some(DeathCode(pending[id]))
  }

  lemma DeathsNone(pending: map<nat, bool>, before: map<nat, Option<Code>>)
    ensures before + Deaths(pending, pending.Keys) == before
  {
    assert Deaths(pending, pending.Keys) == map[];
  }

  lemma DeathsStep(pending: map<nat, bool>, todo: set<nat>, id: nat, before: map<nat, Option<Code>>)
    requires id in todo && todo <= pending.Keys
    ensures before + Deaths(pending, todo - {id})
            == (before + Deaths(pending, todo))[id := Some(DeathCode(pending[id]))]
  {
    assert Deaths(pending, todo - {id}).Keys == Deaths(pending, todo).Keys + {id};
  }

  // ── A reservation's sends ──────────────────────────────────────────────────

  /** What becomes of one request: refused before dispatch, or dispatched and then answered or lost. */
  datatype Delivery =
    | ThreadDead
    | PostFailed
    | AbortedBefore
    | WorkerDied
    | Replied(sameGeneration: bool, error: Option<Code>)

  datatype Sent = Sent(command: Command, delivery: Delivery, readOnly: bool)

  predicate Reached(d: Delivery) {
    d.WorkerDied? || d.Replied?
  }

  function TransportCode(s: Sent): Option<Code> {
    match s.delivery
    case ThreadDead => Some(DeathCode(true))
    case PostFailed => Some(DeathCode(true))
    case AbortedBefore => Some(ABORTED)
    case WorkerDied => Some(DeathCode(!MayApply(s.command)))
    case Replied(_, _) => None
  }

  /** `send`: the flags afterwards and the error it throws, if any. */
  function Send(f: Flags, s: Sent): (Flags, Option<Code>) {
    var g := if Reached(s.delivery) then Dispatched(f, s.command) else f;
    match TransportCode(s)
    case Some(code) => (g, Some(TransportFailure(g, code)))
    case None =>
      if !s.delivery.sameGeneration then (g, Some(OUTCOME_UNKNOWN))
      else if s.delivery.error.Some? then (g, s.delivery.error)
      else (Acknowledged(g, s.command, s.readOnly), None)
  }

  function FlagsAfter(sends: seq<Sent>): Flags {
    if sends == [] then Flags(false, false, false, false, false)
    else Send(FlagsAfter(sends[..|sends| - 1]), sends[|sends| - 1]).0
  }

  ghost predicate DispatchedSome(sends: seq<Sent>, p: Command -> bool) {
    exists i :: 0 <= i < |sends| && Reached(sends[i].delivery) && p(sends[i].command)
  }

  /** The flags say exactly what was dispatched, over any history of replies, deaths and refusals. */
  lemma {:induction false} FlagsAreHistory(sends: seq<Sent>)
    ensures FlagsAfter(sends).exec <==> DispatchedSome(sends, (c: Command) => c.Exec?)
    ensures FlagsAfter(sends).mayHaveEffects <==> DispatchedSome(sends, MayApply)
    ensures FlagsAfter(sends).creatingAttach <==> DispatchedSome(sends, (c: Command) => c.Attach? && MayApply(c))
  {
    if sends != [] {
      var n := |sends| - 1;
      FlagsAreHistory(sends[..n]);
      HistoryGrows(sends, (c: Command) => c.Exec?);
      HistoryGrows(sends, MayApply);
      HistoryGrows(sends, (c: Command) => c.Attach? && MayApply(c));
      hide DispatchedSome;
    }
  }

  lemma HistoryGrows(sends: seq<Sent>, p: Command -> bool)
    requires sends != []
    ensures var n := |sends| - 1;
            DispatchedSome(sends, p) <==>
                DispatchedSome(sends[..n], p) || (Reached(sends[n].delivery) && p(sends[n].command))
  {
    var n := |sends| - 1;
    if DispatchedSome(sends, p) {
      var i :| 0 <= i < |sends| && Reached(sends[i].delivery) && p(sends[i].command);
      if i < n { assert sends[..n][i] == sends[i]; }
    }
    if DispatchedSome(sends[..n], p) {
      var i :| 0 <= i < n && Reached(sends[..n][i].delivery) && p(sends[..n][i].command);
      assert sends[i] == sends[..n][i];
    }
  }

  predicate Acked(s: Sent) {
    s.delivery.Replied? && s.delivery.sameGeneration && s.delivery.error.None?
  }

  predicate Closes(s: Sent) {
    Acked(s) && (s.command.EndScope? || s.command.AbortScope?)
  }

  /** The opening of a scope was acknowledged, and no end of one since. */
  ghost predicate InScope(sends: seq<Sent>) {
    exists i :: 0 <= i < |sends| && Acked(sends[i]) && sends[i].command.BeginScope? && forall j :: i < j < |sends| ==>
        !Closes(sends[j])
  }

  /** A write was acknowledged outside any scope, or the end of one was. */
  ghost predicate WroteAt(sends: seq<Sent>, i: nat) {
    && i < |sends| && Acked(sends[i]) && !sends[i].readOnly
    && MayApply(sends[i].command) && !sends[i].command.Exec? && !InScope(sends[..i + 1])
  }

  ghost predicate Wrote(sends: seq<Sent>) {
    exists i :: WroteAt(sends, i)
  }

  lemma InScopeGrows(sends: seq<Sent>)
    requires sends != []
    ensures var n := |sends| - 1;
            InScope(sends) <==>
                (Acked(sends[n]) && sends[n].command.BeginScope?) || (InScope(sends[..n]) && !Closes(sends[n]))
  {
    var n := |sends| - 1;
    var init := sends[..n];
    if InScope(sends) {
      var i :| 0 <= i < |sends| && Acked(sends[i]) && sends[i].command.BeginScope? && forall j :: i < j < |sends| ==>
          !Closes(sends[j]);
      if i < n { assert init[i] == sends[i] && forall j :: i < j < n ==> init[j] == sends[j]; }
    }
    if InScope(init) && !Closes(sends[n]) {
      var i :| 0 <= i < n && Acked(init[i]) && init[i].command.BeginScope? && forall j :: i < j < n ==>
          !Closes(init[j]);
      assert sends[i] == init[i];
      forall j | i < j < |sends| ensures !Closes(sends[j]) { if j < n { assert init[j] == sends[j]; } }
    }
    if Acked(sends[n]) && sends[n].command.BeginScope? { assert sends[n] == sends[|sends| - 1]; }
  }

  lemma WroteGrows(sends: seq<Sent>)
    requires sends != []
    ensures var n := |sends| - 1; Wrote(sends) <==> Wrote(sends[..n]) || WroteAt(sends, n)
  {
    var n := |sends| - 1;
    var init := sends[..n];
    forall i: nat | i < n ensures WroteAt(sends, i) <==> WroteAt(init, i) { assert init[..i + 1] == sends[..i + 1]; }
    if Wrote(init) {
      var i :| WroteAt(init, i);
      assert WroteAt(sends, i);
    }
  }

  /** The other two flags: a scope is open exactly between the acknowledgements of its opening and its
      end, and a write counts as committed exactly when it was acknowledged outside one. */
  lemma {:induction false} WritesAreHistory(sends: seq<Sent>)
    ensures FlagsAfter(sends).scopeOpen <==> InScope(sends)
    ensures FlagsAfter(sends).committedWrite <==> Wrote(sends)
  {
    if sends != [] {
      var n := |sends| - 1;
      WritesAreHistory(sends[..n]);
      InScopeGrows(sends);
      WroteGrows(sends);
      assert sends[..n + 1] == sends;
      hide InScope, Wrote;
    }
  }

  /** "The worker is unavailable, nothing was written" comes from the transport only while no command
      that may apply was ever dispatched in the reservation. */
  lemma UnavailableMeansNothingDispatched(sends: seq<Sent>)
    requires sends != [] && !sends[|sends| - 1].delivery.Replied?
    requires Send(FlagsAfter(sends[..|sends| - 1]), sends[|sends| - 1]).1 == Some(WORKER_UNAVAILABLE)
    ensures !DispatchedSome(sends, MayApply)
  {
    FlagsAreHistory(sends);
    assert OUTCOME_UNKNOWN[1] == 'E' && WORKER_UNAVAILABLE[1] == 'W';
  }

  // ── Lease and lock around them ─────────────────────────────────────────────

  /** What the work came to, and then what the lease and the lock make of it. */
  datatype Result = Returned | Threw(code: Code)

  function Lease(f: Flags, r: Result, aborted: bool): Result {
    match r
    case Returned =>
      if aborted && LeaseLoss(f, None).Some? then Threw(LeaseLoss(f, None).value) else r
    case Threw(code) =>
      if (aborted || code == LOCK_LOST) && LeaseLoss(f, Some(code)).Some? then Threw(LeaseLoss(f, Some(code)).value)
      else Threw(RuntimeFailure(f, code))
  }

  /** `runExclusive` and `runShared` after the work: `lost` is the heartbeat's verdict. */
  function Lock(f: Flags, r: Result, lost: bool, exclusive: bool): Result {
    match r
    case Returned =>
      if !lost then r
      else if LeaseLoss(f, None).Some? then Threw(LeaseLoss(f, None).value)
      else Threw(if exclusive then LOCK_LOST_APPLIED else LOCK_LOST)
    case Threw(code) => if lost && !PreservesAmbiguousOutcome(code) then Threw(LOCK_LOST) else r
  }

  /** The lease waits for a recovery before it throws. */
  predicate LeaseAwaits(f: Flags, r: Result, aborted: bool) {
    r.Threw? && (((aborted || r.code == LOCK_LOST) && LeaseLoss(f, Some(r.code)).Some?)
        || (r.code == COHERENCE && f.exec))
  }

  /** The lock's verdict can be later than the lease's only if the lease waited, or the work returned:
      between a throw that is passed straight on and the lock's handler no timer runs. */
  predicate SameTurn(f: Flags, r: Result, aborted: bool, lost: bool) {
    r.Threw? && lost && !aborted ==> LeaseAwaits(f, r, aborted)
  }

  function Surfaced(f: Flags, r: Result, aborted: bool, lost: bool, exclusive: bool): Result {
    Lock(f, Lease(f, r, aborted), lost, exclusive)
  }

  lemma CodesDiffer()
    ensures OUTCOME_UNKNOWN != LOCK_LOST && OUTCOME_UNKNOWN != RUNTIME_BUSY && LOCK_LOST != RUNTIME_BUSY
            && LOCK_LOST != COHERENCE
    ensures !PreservesAmbiguousOutcome(LOCK_LOST) && !PreservesAmbiguousOutcome(RUNTIME_BUSY)
            && PreservesAmbiguousOutcome(OUTCOME_UNKNOWN)
    ensures RUNTIME_BUSY != COHERENCE && LOCK_LOST_APPLIED != LOCK_LOST
  {
    assert OUTCOME_UNKNOWN[1] == 'E' && LOCK_LOST[1] == 'L' && RUNTIME_BUSY[1] == 'R' && COHERENCE[1] == 'C'
        && DRIVER_FAULT[1] == 'D';
    assert |LOCK_LOST| == 9 && |LOCK_LOST_APPLIED| == 17 && LOCK_LOST_APPLIED[1] == 'L';
  }

  /** Retry safety of a whole reservation: once a script was dispatched, no history of deaths, error
      replies and lease losses surfaces ELOCKLOST or ERUNTIME_BUSY; and if the lease was lost, nothing
      retryable is surfaced at all. */
  lemma DispatchedExecNeverRetryable(sends: seq<Sent>, r: Result, aborted: bool, lost: bool, exclusive: bool)
    requires DispatchedSome(sends, (c: Command) => c.Exec?)
    requires SameTurn(FlagsAfter(sends), r, aborted, lost)
    ensures var s := Surfaced(FlagsAfter(sends), r, aborted, lost, exclusive);
            && (s.Threw? ==> s.code != LOCK_LOST && s.code != RUNTIME_BUSY)
            && (lost ==> s.Threw? && !Retryable(s.code))
  {
    FlagsAreHistory(sends);
    CodesDiffer();
    var f := FlagsAfter(sends);
    var s := Surfaced(f, r, aborted, lost, exclusive);
    hide DispatchedSome, FlagsAfter, PreservesAmbiguousOutcome;
    assert lost ==> s.Threw? && PreservesAmbiguousOutcome(s.code);
    if lost { AmbiguousIsNotRetryable(s.code); }
  }

  /** Whatever a request had applied, or may have, a lease loss after it is never reported as something
      to retry: a dispatched script, a created sandbox, or an acknowledged write. */
  lemma AppliedNeverRetryable(sends: seq<Sent>, r: Result, aborted: bool, exclusive: bool)
    requires || DispatchedSome(sends, (c: Command) => c.Exec?) || Wrote(sends)
             || DispatchedSome(sends, (c: Command) => c.Attach? && MayApply(c))
    requires SameTurn(FlagsAfter(sends), r, aborted, true)
    ensures var s := Surfaced(FlagsAfter(sends), r, aborted, true, exclusive); s.Threw? && !Retryable(s.code)
  {
    FlagsAreHistory(sends);
    WritesAreHistory(sends);
    CodesDiffer();
    var s := Surfaced(FlagsAfter(sends), r, aborted, true, exclusive);
    hide DispatchedSome, Wrote, FlagsAfter, PreservesAmbiguousOutcome;
    assert s.Threw? && PreservesAmbiguousOutcome(s.code);
    AmbiguousIsNotRetryable(s.code);
  }

  /** Why the same-turn condition is needed: were a loss noticed between the lease's verdict and the
      lock's, the lock would report ELOCKLOST for an error that the lease passed on, exactly unless the
      code is one that admits effects. Nothing but microtasks lies between the two. */
  lemma LostInTheGap(sends: seq<Sent>, code: Code, lost: bool, exclusive: bool)
    requires DispatchedSome(sends, (c: Command) => c.Exec?) && code != LOCK_LOST
    ensures Surfaced(FlagsAfter(sends), Threw(code), false, lost, exclusive) == Threw(LOCK_LOST) <==>
              lost && !PreservesAmbiguousOutcome(RuntimeFailure(FlagsAfter(sends), code))
  {
    FlagsAreHistory(sends);
    CodesDiffer();
    hide PreservesAmbiguousOutcome, DispatchedSome, FlagsAfter;
  }

  // ── Exactly what is surfaced ───────────────────────────────────────────────

  /** The commands that may leave something behind: those that write, the end of a scope, a script, and the creation of
      a sandbox. */
  lemma MayApplyExactly(c: Command)
    ensures MayApply(c) <==>
              || c in {Exec, WriteFile, AppendFile, Mkdir, CreateExclusive, Rm, Cp, Mv, Chmod, Symlink, Link, Utimes,
                       BulkIngest, EndScope}
              || c == Attach(false)
  {
  }

  /** What the last send of a history throws. "Unavailable" says that neither it nor anything before it that was
      dispatched may have applied; an answer from another generation leaves the outcome unknown. */
  lemma SendThrowsExactly(sends: seq<Sent>)
    requires sends != []
    ensures var last, r := sends[|sends| - 1], Send(FlagsAfter(sends[..|sends| - 1]), sends[|sends| - 1]).1;
            var unknown := if DispatchedSome(sends, MayApply) then OUTCOME_UNKNOWN else WORKER_UNAVAILABLE;
            match last.delivery
            case ThreadDead => r == Some(unknown)
            case PostFailed => r == Some(unknown)
            case AbortedBefore => r == Some(ABORTED)
            case WorkerDied => r == Some(unknown)
            case Replied(same, error) => r == if !same then Some(OUTCOME_UNKNOWN) else error
  {
    FlagsAreHistory(sends);
    var n := |sends| - 1;
    HistoryGrows(sends, MayApply);
    FlagsAreHistory(sends[..n]);
    hide DispatchedSome, MayApply;
    assert ABORTED[1] == 'B' && WORKER_UNAVAILABLE[1] == 'W';
  }

  /** Something was applied, or may have been: a script was dispatched, a sandbox created, or a write acknowledged. */
  ghost predicate Applied(sends: seq<Sent>) {
    || DispatchedSome(sends, (c: Command) => c.Exec?) || Wrote(sends)
    || DispatchedSome(sends, (c: Command) => c.Attach? && MayApply(c))
  }

  /** An error that the lease passes on: of a failed recovery or a busy runtime nothing is known once a script ran, or
      after a write. */
  ghost function PassedOn(sends: seq<Sent>, code: Code): Code {
    var ran := DispatchedSome(sends, (c: Command) => c.Exec?);
    if (code == COHERENCE && ran) || (code == RUNTIME_BUSY && (ran || Wrote(sends))) then OUTCOME_UNKNOWN else code
  }

  /** What the client is told, over every history: the result itself unless the lease was lost; after a loss, an
      outcome unknown if something may have been applied, and otherwise that the lock was lost. */
  lemma SurfacedExactly(sends: seq<Sent>, r: Result, aborted: bool, lost: bool, exclusive: bool)
    ensures var s := Surfaced(FlagsAfter(sends), r, aborted, lost, exclusive);
            match r
            case Returned =>
              s == (if (aborted || lost) && Applied(sends) then Threw(OUTCOME_UNKNOWN)
                    else if lost then Threw(if exclusive then LOCK_LOST_APPLIED else LOCK_LOST)
                    else Returned)
            case Threw(code) =>
              if (aborted || code == LOCK_LOST) && Applied(sends) then
                s == Threw(if PreservesAmbiguousOutcome(code) then code else OUTCOME_UNKNOWN)
              else
                var passed := PassedOn(sends, code);
                s == Threw(if lost && !PreservesAmbiguousOutcome(passed) then LOCK_LOST else passed)
  {
    FlagsAreHistory(sends);
    WritesAreHistory(sends);
    CodesDiffer();
    hide DispatchedSome, Wrote, FlagsAfter, PreservesAmbiguousOutcome;
  }
}
