/** Any number of sessions over one database, and any number of operations under way in each. Every
    session caches the whole tree with the epoch it belongs to. Its operations plan against the cache,
    then commit or are recorded, then publish, each when it can; sessions load, run buffered scopes, lose
    replies, abort, and retire each other's generations, in any order. `past` records the tree of every
    epoch that was ever committed, and `commits` every transaction that advanced the epoch. */
module Coherence {
  import opened Options
  import opened Tables
  import opened View
  import opened Commands
  import opened CommandLaw
  import opened Renaming
  import opened Runs
  import opened Replay
  import opened Coalescing
  import opened Persistence
  import opened Isolation
  import opened InFlight
  import opened Closure
  import opened Refusals
  import opened Flights

  type Sid = nat

  datatype Phase =
    | Quiet
    | Scoped(lost: bool, journal: seq<Buffered>, bytes: nat)
    | Publishing(epoch: nat)
    | Settling(settlement: Settlement)
    | Recovering

  /** `air` holds the mutations under way; `base` and `log` say what a scope started from and which
      commands it recorded. A scope is doomed once it has recorded a command that clashes with what was
      due; the log stops there. `claims` are the generations the session retired and has yet to certify. */
  datatype Session = Session(epoch: nat, entries: PathView, poisoned: bool, phase: Phase, next: Id, generation: nat,
                             air: Air, base: PathView, log: seq<Step>, doomed: bool, claims: seq<Commit>)

  datatype Commit = Commit(checked: nat, result: nat)
  datatype System = System(db: Db, caps: Caps, sessions: map<Sid, Session>, past: map<nat, Tree>, commits: seq<Commit>)

  /** `j` numbers a session's planned mutations and `k` its recorded ones. */
  datatype Event =
    | Install(i: Sid, at: nat, rows: PathView)
    | LoadFails(i: Sid)
    | Plan(i: Sid, cmd: Cmd, held: set<Path>)
    | GiveUp(i: Sid, j: nat)
    | Write(i: Sid, j: nat, ids: seq<Id>, acknowledged: bool)
    | Record(i: Sid, j: nat, bytes: nat)
    | Land(i: Sid, k: nat)
    | Begin(i: Sid)
    | Lose(i: Sid)
    | End(i: Sid, allocation: seq<seq<Id>>, fate: Fate)
    | Abort(i: Sid)
    | PublishScope(i: Sid)
    | Claim(i: Sid, acknowledged: bool)
    | Certify(i: Sid, c: nat)

  /** The stamp of the scope a session is in, or of the time between two. */
  function Now(s: Session): Stamp {
    Reservations.Stamp(s.generation, s.phase.Scoped?)
  }

  /** The scope can only fail. */
  predicate Dead(s: Session) {
    s.phase.Scoped? && s.doomed
  }

  /** Operations may plan. */
  predicate Open(s: Session) {
    match s.phase
    case Quiet => !s.poisoned
    case Publishing(_) => true
    case Scoped(lost, _, _) => !lost
    case _ => false
  }

  // ── The steps ──────────────────────────────────────────────────────────────

  function WithIds(log: seq<Step>, ids: seq<seq<Id>>): (r: seq<Step>)
    requires |ids| == |log|
    ensures |r| == |log|
  {
    seq(|log|, i requires 0 <= i < |log| => log[i].(stored := ids[i]))
  }

  ghost predicate Assigns(t: Tree, log: seq<Step>, ids: seq<seq<Id>>) {
    && |ids| == |log| && (forall i :: 0 <= i < |log| ==> |ids[i]| == |log[i].minted|)
    && Allocated(t, WithIds(log, ids))
  }

  ghost predicate Enabled(a: System, ev: Event) {
    ev.i in a.sessions &&
    var s := a.sessions[ev.i];
    match ev
    // A load is a repeatable-read snapshot of some committed state. Admission awaits it before a request
    // has anything under way, and a scope's recovery before the next request.
    case Install(_, at, rows) =>
      (s.phase.Quiet? || s.phase.Recovering?) && NoneLive(s.air, Now(s)) && at in a.past && Mirrors(rows, a.past[at])
    case LoadFails(_) => s.phase.Recovering?
    // The operation holds a reservation, so nothing under way overlaps what it reserved. One that reads the
    // cache again while it waits gives its plan up and makes it anew.
    case Plan(_, cmd, held) => Open(s) && MayPlan(s.entries, s.air, Now(s), cmd, held)
    case GiveUp(_, j) => j < |s.air.planned|
    case Write(_, j, ids, _) =>
      && !s.phase.Scoped? && j < |s.air.planned| && |ids| == Mints(s.air.planned[j].flight.op) && Fresh(a.db.tree, ids)
    case Record(_, j, _) => s.phase.Scoped? && j < |s.air.planned|
    case Land(_, k) =>
      && (s.phase.Scoped? || s.phase.Publishing?) && k < |s.air.recorded| && InTurn(s.air.recorded, k)
      && (!Dead(s) ==>
         PlanOf(s.entries, s.air.recorded[k].cmd) == Does(s.air.recorded[k].op) && Given(s.air.recorded[k]))
    case Begin(_) => s.phase.Quiet? && !s.poisoned
    case Lose(_) => s.phase.Scoped?
    // Between recording and publication lie only microtasks, and every end of a scope waits for the
    // database first.
    case End(_, allocation, _) => s.phase.Scoped? && s.air.recorded == [] && Assigns(a.db.tree, s.log, allocation)
    case Abort(_) => s.phase.Scoped? && s.air.recorded == []
    case PublishScope(_) => s.phase.Settling? && s.phase.settlement.Committed?
    case Claim(_, _) => s.phase.Quiet?
    // Between a commit and its publication, too, lie only microtasks.
    case Certify(_, c) => c < |s.claims| && !s.phase.Publishing?
  }

  function With(a: System, i: Sid, s: Session): System {
    a.(sessions := a.sessions[i := s])
  }

  /** A transaction moved the database from the epoch it checked to `db`. */
  function Commits(a: System, db: Db): System {
    a.(db := db, past := a.past[db.version := db.tree], commits := a.commits + [Commit(a.db.version, db.version)])
  }

  /** An eager mutation: the epoch is compared under the sandbox lock, then the statements run. */
  function WriteDb(db: Db, authority: nat, op: Op, ids: seq<Id>): Option<Db>
    requires |ids| == Mints(op)
  {
    if db.version != authority then None else
    match Run(op, Tx(db.tree, db.version, 0), ids, authority)
    case None => None
    case Some(r) => Some(Db(r.tree, r.version))
  }

  /** The operation fails, or is refused, and leaves nothing behind. */
  function Refused(s: Session, j: nat): Session
    requires j < |s.air.planned|
  {
    s.(air := Dropped(s.air, j))
  }

  predicate Passes(s: Session, j: nat) {
    IsLive(s.air, Now(s), j) && !(s.phase.Scoped? && s.phase.lost)
  }

  ghost function Recorded(s: Session, caps: Caps, j: nat, bytes: nat): Session
    requires s.phase.Scoped? && j < |s.air.planned|
  {
    var x := s.air.planned[j].flight;
    var minted := MintIds(s.next, Mints(x.op));
    var b := Buffered(x.op, minted, bytes);
    var rest := s.(next := s.next - Mints(x.op));
    var kept := Scoped(false, Keep(s.phase.journal, b), SumBytes(Keep(s.phase.journal, b)));
    if !Passes(s, j) then Refused(s, j)
    else if !Fits(s.phase.journal, s.phase.bytes, b, caps) then
      rest.(phase := s.phase.(lost := true), air := Dropped(s.air, j))
    else if s.doomed then
      rest.(phase := kept, air := Dropped(s.air, j).(recorded := s.air.recorded + [Boarded(s.air, j, minted)]))
    else rest.(phase := kept, log := s.log + [Step(x.cmd, minted, minted, bytes)], air := TakenOff(s.air, j, minted),
               doomed := Clashes(s.air.truth, x.cmd))
  }

  function Settled(s: Session, r: Settlement): Session {
    match r
    case Unchanged => s.(phase := Quiet)
    case Committed(_, _) => s.(phase := Settling(r))
    case Failed(reload) => s.(phase := if reload then Recovering else Quiet)
  }

  /** `extra` are the ids handed out for what a doomed scope recorded after its log. */
  function Ended(a: System, i: Sid, s: Session, allocation: seq<seq<Id>>, extra: seq<seq<Id>>, fate: Fate): System
    requires s.phase.Scoped? && |allocation| == |s.log|
    requires |s.phase.journal| == |Kept(s.base, WithIds(s.log, allocation)).1| + |extra|
  {
    var stored := Kept(s.base, WithIds(s.log, allocation)).1 + extra;
    var r := Finished(a.db, s.epoch, s.phase.lost, s.phase.journal, stored, fate);
    var b := if r.0 == a.db then a else Commits(a, r.0);
    With(b, i, Settled(s, r.1))
  }

  ghost predicate NextWrite(a: System, i: Sid, j: nat, ids: seq<Id>, acknowledged: bool, b: System)
    requires Enabled(a, Write(i, j, ids, acknowledged))
  {
    var s := a.sessions[i];
    var r := WriteDb(a.db, s.epoch, s.air.planned[j].flight.op, ids);
    if !Passes(s, j) || r.None? then b == With(a, i, Refused(s, j))
    else b == With(Commits(a, r.value), i,
                   if acknowledged then s.(phase := Publishing(r.value.version), air := TakenOff(s.air, j, ids))
                   else Refused(s, j))
  }

  function Landing(s: Session, k: nat): Session
    requires k < |s.air.recorded| && PlanOf(s.entries, s.air.recorded[k].cmd) == Does(s.air.recorded[k].op)
    requires Given(s.air.recorded[k])
  {
    var n := s.(entries := Landed(s.entries, s.air.recorded[k]), air := Arrived(s.entries, s.air, k));
    if s.phase.Publishing? then n.(epoch := s.phase.epoch, phase := Quiet) else n
  }

  ghost predicate NextEnd(a: System, i: Sid, allocation: seq<seq<Id>>, fate: Fate, b: System)
    requires Enabled(a, End(i, allocation, fate))
  {
    var s := a.sessions[i];
    exists extra: seq<seq<Id>> ::
      && |s.phase.journal| == |Kept(s.base, WithIds(s.log, allocation)).1| + |extra|
      && b == Ended(a, i, s, allocation, extra, fate)
  }

  function Renamed(s: Session, f: Remap): Session {
    s.(entries := RenameIds(s.entries, f), air := s.air.(truth := RenameIds(s.air.truth, f)))
  }

  ghost predicate NextPublishScope(a: System, i: Sid, b: System)
    requires Enabled(a, PublishScope(i))
  {
    var s := a.sessions[i];
    var n := Renamed(s, s.phase.settlement.remap);
    if exists p :: p in n.entries && n.entries[p].id < 0
    then b == With(a, i, n.(phase := Recovering))
    else b == With(a, i, n.(epoch := s.phase.settlement.epoch, phase := Quiet))
  }

  ghost predicate NextClaim(a: System, i: Sid, acknowledged: bool, b: System)
    requires Enabled(a, Claim(i, acknowledged))
  {
    var s, db := a.sessions[i], a.db.(version := a.db.version + 1);
    b == With(Commits(a, db), i,
              if acknowledged then s.(claims := s.claims + [Commit(a.db.version, db.version)]) else s)
  }

  /** The view moves to the new generation if it is still at the retired one; otherwise a load will follow. */
  function Certified(s: Session, c: nat): Session
    requires c < |s.claims|
  {
    s.(claims := s.claims[..c] + s.claims[c + 1..],
       epoch := if !s.poisoned && s.epoch == s.claims[c].checked then s.claims[c].result else s.epoch)
  }

  /** The steps that touch nothing but the session. */
  ghost predicate NextLocal(a: System, ev: Event, b: System)
    requires Enabled(a, ev)
  {
    var s := a.sessions[ev.i];
    match ev
    case Install(i, at, rows) =>
      b == With(a, i, s.(epoch := at, entries := rows, poisoned := false, phase := Quiet, air :=
          Grounded(rows, s.air.planned)))
    case LoadFails(i) => b == With(a, i, s.(poisoned := true, phase := Quiet))
    case Plan(i, cmd, held) => b == With(a, i, s.(air := WithPlan(s.entries, s.air, Now(s), cmd, held)))
    case GiveUp(i, j) => b == With(a, i, Refused(s, j))
    case Record(i, j, bytes) => b == With(a, i, Recorded(s, a.caps, j, bytes))
    // What a doomed scope caches is of no account: it will be reloaded or poisoned.
    case Land(i, k) =>
      if Dead(s) then exists entries: PathView ::
        b == With(a, i, s.(entries := entries, air := Arrived(s.entries, s.air, k)))
      else b == With(a, i, Landing(s, k))
    case Begin(i) =>
      b == With(a, i, s.(phase := Scoped(false, [], 0), generation := s.generation + 1, base := s.air.truth, log := [],
                         doomed := false))
    case Lose(i) => b == With(a, i, s.(phase := s.phase.(lost := true)))
    case Abort(i) => b == With(a, i, s.(phase := if s.phase.journal != [] then Recovering else Quiet))
    case _ => false
  }

  /** The step relation, one event at a time. */
  ghost predicate Next(a: System, ev: Event, b: System) {
    Enabled(a, ev) &&
    match ev
    case Write(i, j, ids, acknowledged) => NextWrite(a, i, j, ids, acknowledged, b)
    case End(i, allocation, fate) => NextEnd(a, i, allocation, fate, b)
    case PublishScope(i) => NextPublishScope(a, i, b)
    case Claim(i, acknowledged) => NextClaim(a, i, acknowledged, b)
    case Certify(i, c) => b == With(a, i, Certified(a.sessions[i], c))
    case _ => NextLocal(a, ev, b)
  }

  // ── What every run keeps ───────────────────────────────────────────────────

  ghost predicate Sound(t: Tree) {
    exists v :: Started(v, t)
  }

  /** Provisional ids handed out in the scope: negative, distinct, and above the next one. */
  ghost predicate Provisional(log: seq<Step>, next: Id) {
    && next < 0 && Distinct(Minteds(log)) && forall id :: id in Minteds(log) ==> next < id < 0
  }

  ghost predicate ScopeOk(s: Session, t: Tree)
    requires s.phase.Scoped?
  {
    && Started(s.base, t) && Legal(s.base, s.log) && Provisional(s.log, s.next)
    && s.air.truth == ViewOf(s.base, s.log) && s.phase.journal == Kept(s.base, s.log).0
    && s.phase.bytes == SumBytes(s.phase.journal)
  }

  /** A scope whose last logged command clashed: its kept journal begins with what was kept of the log. */
  ghost predicate DeadOk(s: Session, t: Tree)
    requires s.phase.Scoped?
  {
    && Started(s.base, t) && Legal(s.base, s.log) && Provisional(s.log, s.next) && s.log != []
    && Kept(s.base, s.log).0 != [] && Kept(s.base, s.log).0 <= s.phase.journal
    && !Kept(s.base, s.log).0[|Kept(s.base, s.log).0| - 1].op.WriteOp?
    && Clashes(ViewOf(s.base, s.log[..|s.log| - 1]), s.log[|s.log| - 1].cmd)
    && s.phase.bytes == SumBytes(s.phase.journal)
  }

  /** No planned mutation has a stamp from the future, and none made since the last scope ended is
      there while a scope is open. */
  ghost predicate StampsOk(s: Session) {
    forall j :: 0 <= j < |s.air.planned| ==>
      var stamp := s.air.planned[j].stamp;
      stamp.generation <= s.generation && (s.phase.Scoped? && stamp.generation == s.generation ==> stamp.active)
  }

  /** Nothing can be under way. */
  ghost predicate Idle(s: Session) {
    NoneLive(s.air, Now(s)) && s.air.recorded == []
  }

  /** Provisional ids go down, so the next one is new to the cache and to everything recorded. */
  ghost predicate Above(entries: PathView, recorded: seq<Flight>, next: Id) {
    && (forall q :: q in entries ==> entries[q].id > next)
    && (forall k, id :: 0 <= k < |recorded| && id in recorded[k].ids ==> id > next)
  }

  ghost predicate PhaseOk(a: System, s: Session) {
    match s.phase
    case Quiet => !s.poisoned ==> s.epoch in a.past && Started(s.air.truth, a.past[s.epoch]) && s.air.recorded == []
    case Publishing(e) => e in a.past && s.epoch < e && Started(s.air.truth, a.past[e]) && |s.air.recorded| == 1
    case Scoped(_, journal, bytes) =>
      && s.epoch in a.past
      && (if s.doomed then DeadOk(s, a.past[s.epoch])
          else ScopeOk(s, a.past[s.epoch]) && NoneClashes(s.base, s.log) && Above(s.entries, s.air.recorded, s.next))
      && |journal| <= a.caps.maxOps && bytes <= a.caps.maxBytes
    case Settling(r) =>
      && r.Committed? && r.epoch in a.past && Started(RenameIds(s.air.truth, r.remap), a.past[r.epoch]) && Idle(s)
    case Recovering => Idle(s)
  }

  ghost predicate SessionOk(a: System, s: Session) {
    && s.next < 0 && StampsOk(s)
    && (s.poisoned ==> (s.phase.Quiet? || s.phase.Recovering?) && Idle(s))
    && (!s.poisoned && !s.phase.Recovering? && !Dead(s) ==> AirOk(s.entries, s.air, Now(s)))
    && PhaseOk(a, s)
  }

  /** A retired generation and the one after it have the same tree. */
  ghost predicate ClaimsOk(a: System, s: Session) {
    forall c :: 0 <= c < |s.claims| ==>
      var t := s.claims[c];
      t.checked in a.past && t.result in a.past && a.past[t.checked] == a.past[t.result]
  }

  ghost predicate HistoryOk(a: System) {
    && a.db.version in a.past && a.past[a.db.version] == a.db.tree
    && (forall e :: e in a.past ==> e <= a.db.version && Sound(a.past[e]))
  }

  /** Commits form a chain: each one checked the epoch the one before it left. */
  ghost predicate ChainOk(a: System) {
    && (forall n :: 0 <= n < |a.commits| ==> a.commits[n].checked < a.commits[n].result)
    && (forall n :: 0 < n < |a.commits| ==> a.commits[n].checked == a.commits[n - 1].result)
    && (a.commits != [] ==> a.commits[|a.commits| - 1].result == a.db.version)
  }

  ghost predicate Inv(a: System) {
    HistoryOk(a) && ChainOk(a) && forall i :: i in a.sessions ==>
        SessionOk(a, a.sessions[i]) && ClaimsOk(a, a.sessions[i])
  }

  predicate Blank(s: Session) {
    s.phase.Quiet? && s.poisoned && s.next == -1 && s.air.planned == [] && s.air.recorded == [] && s.claims == []
  }

  /** Sessions start with an empty, poisoned view: the first thing they can do is load. */
  ghost predicate Init(a: System) {
    && Sound(a.db.tree) && a.past == map[a.db.version := a.db.tree] && a.commits == []
    && forall i :: i in a.sessions ==> Blank(a.sessions[i])
  }

  lemma InitInv(a: System)
    requires Init(a)
    ensures Inv(a)
  {
  }

  // ── One step ───────────────────────────────────────────────────────────────

  ghost predicate Grows(a: System, b: System) {
    b.caps == a.caps && forall e :: e in a.past ==> e in b.past && b.past[e] == a.past[e]
  }

  lemma OthersKeep(a: System, b: System, s: Session)
    requires Grows(a, b)
    ensures SessionOk(a, s) ==> SessionOk(b, s)
    ensures ClaimsOk(a, s) ==> ClaimsOk(b, s)
  {
    hide Started, ScopeOk, DeadOk, AirOk, StampsOk, Idle, Above;
  }

  lemma SessionStep(a: System, b: System, i: Sid, s: Session)
    requires Inv(a) && Grows(a, b) && HistoryOk(b) && ChainOk(b)
    requires b.sessions == a.sessions[i := s] && SessionOk(b, s)
    requires (i in a.sessions && s.claims == a.sessions[i].claims) || ClaimsOk(b, s)
    ensures Inv(b)
  {
    hide HistoryOk, ChainOk, SessionOk, Grows;
    forall j | j in b.sessions ensures SessionOk(b, b.sessions[j]) && ClaimsOk(b, b.sessions[j]) {
      if j in a.sessions { OthersKeep(a, b, a.sessions[j]); }
    }
  }

  lemma CommitKeeps(a: System, db: Db)
    requires HistoryOk(a) && ChainOk(a) && db.version > a.db.version && Sound(db.tree)
    ensures var b := Commits(a, db);
            HistoryOk(b) && ChainOk(b) && Grows(a, b) && db.version in b.past && b.past[db.version] == db.tree
  {
    hide Sound;
  }

  lemma LoadedView(a: System, at: nat, rows: PathView)
    requires HistoryOk(a) && at in a.past && Mirrors(rows, a.past[at])
    ensures Started(rows, a.past[at])
  {
    hide Mirrors;
    var v :| Started(v, a.past[at]);
    MirrorUnique(v, rows, a.past[at]);
  }

  /** An eager write: its transaction leaves a tree that the published view is. */
  lemma WriteStarted(v: PathView, db: Db, authority: nat, cmd: Cmd, ids: seq<Id>)
    requires Started(v, db.tree) && NormalCmd(cmd) && Valid(v, cmd) && !LinksRoot(cmd) && PlanOf(v, cmd).Does?
    requires |ids| == Mints(PlanOf(v, cmd).op) && Fresh(db.tree, ids)
    ensures var r := WriteDb(db, authority, PlanOf(v, cmd).op, ids);
            r.Some? ==> r.value.version > db.version && Started(Publish(v, cmd, ids), r.value.tree)
  {
    hide InStep, PlanOf, Run, Publish;
    var tx := Tx(db.tree, db.version, 0);
    CommandAgrees(v, tx, cmd, ids, db.version);
    PublishNormal(v, db.tree, cmd, ids);
    RunFollows(PlanOf(v, cmd).op, tx, ids, db.version);
    PlannedAdvances(v, tx, cmd, ids, db.version);
  }

  lemma {:induction false} SameRun(v: PathView, log: seq<Step>, ids: seq<seq<Id>>)
    requires |ids| == |log|
    ensures ViewOf(v, WithIds(log, ids)) == ViewOf(v, log)
    ensures Kept(v, WithIds(log, ids)).0 == Kept(v, log).0
    ensures Minteds(WithIds(log, ids)) == Minteds(log)
  {
    if log != [] {
      hide PlanOf, After, Keep, Superseding;
      var n := |log| - 1;
      var w := WithIds(log, ids);
      assert w[..n] == WithIds(log[..n], ids[..n]);
      SameRun(v, log[..n], ids[..n]);
      SameAfter(ViewOf(v, log[..n]), log[n], ids[n]);
      assert w[n] == log[n].(stored := ids[n]);
      KeptUnfold(v, w);
      KeptUnfold(v, log);
      hide Kept;
    }
  }

  lemma SameAfter(v: PathView, s: Step, ids: seq<Id>)
    ensures After(v, s.(stored := ids)) == After(v, s)
  {
  }

  lemma KeptUnfold(v: PathView, log: seq<Step>)
    requires log != []
    ensures var n := |log| - 1;
            var plan := PlanOf(ViewOf(v, log[..n]), log[n].cmd);
            Kept(v, log).0 == if !plan.Does? then Kept(v, log[..n]).0
                              else Keep(Kept(v, log[..n]).0, Buffered(plan.op, log[n].minted, log[n].bytes))
  {
  }

  lemma SameLegal(v: PathView, log: seq<Step>, ids: seq<seq<Id>>)
    requires |ids| == |log| && Legal(v, log) && forall i :: 0 <= i < |log| ==> |ids[i]| == |log[i].minted|
    ensures Legal(v, WithIds(log, ids))
  {
    var w := WithIds(log, ids);
    forall i | 0 <= i < |w| ensures Records(ViewOf(v, w[..i]), w[i]) {
      assert w[..i] == WithIds(log[..i], ids[..i]);
      SameRun(v, log[..i], ids[..i]);
      assert Records(ViewOf(v, log[..i]), log[i]);
    }
  }

  /** What a committed flush leaves: the whole scope's commands, and a view that is their tree. */
  lemma FlushStarted(s: Session, db: Db, allocation: seq<seq<Id>>)
    requires s.phase.Scoped? && ScopeOk(s, db.tree) && Assigns(db.tree, s.log, allocation)
    ensures |s.phase.journal| == |Kept(s.base, WithIds(s.log, allocation)).1|
    ensures var log := WithIds(s.log, allocation);
            var r := ReplayAll(Tx(db.tree, db.version, 0), map[], s.phase.journal, Kept(s.base, log).1, db.version);
            var g := Eager(s.base, Tx(db.tree, db.version, 0), log);
            && (r.Some? <==> g.Some?)
            && (r.Some? ==>
                  && r.value.0.tree == g.value.1.tree && g.value.0 == RenameIds(s.air.truth, r.value.1)
                  && Started(RenameIds(s.air.truth, r.value.1), r.value.0.tree)
                  && (s.log != [] ==> r.value.0.version > db.version))
  {
    hide Started, InStep, Legal, InSync, Allocated, Kept, ReplayAll, Eager, ViewOf, Minteds;
    var log := WithIds(s.log, allocation);
    SameRun(s.base, s.log, allocation);
    SameLegal(s.base, s.log, allocation);
    var tx := Tx(db.tree, db.version, 0);
    BufferedRefinesEager(s.base, tx, log, db.version);
    var r := Flush(tx, Kept(s.base, log), db.version);
    if r.Some? { SyncedStarted(ViewOf(s.base, log), r.value.1, r.value.0.tree); }
  }

  lemma SyncedStarted(v: PathView, f: Remap, t: Tree)
    requires InSync(v, f, t)
    ensures Started(RenameIds(v, f), t)
  {
    hide InStep;
    ValidRenames(v, f, ChangeMode([], 0));
  }

  lemma {:induction false} KeptNonEmpty(v: PathView, log: seq<Step>)
    requires Legal(v, log)
    ensures Kept(v, log).0 == [] <==> log == []
  {
    if log != [] {
      assert Records(ViewOf(v, log[..|log| - 1]), log[|log| - 1]);
      hide PlanOf;
    }
  }

  lemma RecordKeeps(s: Session, caps: Caps, j: nat, bytes: nat, t: Tree)
    requires s.phase.Scoped? && ScopeOk(s, t) && s.next < 0 && j < |s.air.planned| && Passes(s, j) && !s.doomed
    requires var x := s.air.planned[j].flight;
             NormalCmd(x.cmd) && Valid(s.air.truth, x.cmd) && !LinksRoot(x.cmd)
                 && PlanOf(s.air.truth, x.cmd) == Does(x.op)
    requires |s.phase.journal| <= caps.maxOps && s.phase.bytes <= caps.maxBytes
    ensures var r := Recorded(s, caps, j, bytes);
            && r.phase.Scoped? && ScopeOk(r, t) && r.next < 0
            && |r.phase.journal| <= caps.maxOps && r.phase.bytes <= caps.maxBytes
  {
    hide Started, PlanOf, Publish, Valid, Legal, Provisional, ViewOf, Kept, Keep, SumBytes, MintIds, Charged, Mints;
    var x := s.air.planned[j].flight;
    var minted := MintIds(s.next, Mints(x.op));
    var st := Step(x.cmd, minted, minted, bytes);
    ProvisionalMore(s.log, s.next, st);
    KeepCharges(s.phase.journal, Buffered(x.op, minted, bytes));
    LegalMore(s.base, s.log, st);
    LogMore(s.base, s.log, st);
  }

  lemma LogMore(v: PathView, log: seq<Step>, st: Step)
    requires Records(ViewOf(v, log), st)
    ensures ViewOf(v, log + [st]) == Publish(ViewOf(v, log), st.cmd, st.minted)
    ensures Kept(v, log + [st]).0 == Keep(Kept(v, log).0,
            Buffered(PlanOf(ViewOf(v, log), st.cmd).op, st.minted, st.bytes))
  {
    hide PlanOf, Publish, Valid;
    assert (log + [st])[..|log|] == log;
  }

  lemma ProvisionalMore(log: seq<Step>, next: Id, st: Step)
    requires Provisional(log, next) && st.minted == MintIds(next, |st.minted|)
    ensures Provisional(log, next - |st.minted|) && next - |st.minted| < 0
    ensures Provisional(log + [st], next - |st.minted|)
  {
    MintedLater(log, next, st);
  }

  lemma LegalMore(v: PathView, log: seq<Step>, st: Step)
    requires Legal(v, log) && Records(ViewOf(v, log), st)
    ensures Legal(v, log + [st])
  {
    hide Records;
    var w := log + [st];
    forall i | 0 <= i < |w| ensures Records(ViewOf(v, w[..i]), w[i]) {
      if i < |log| { assert w[..i] == log[..i] && Records(ViewOf(v, log[..i]), log[i]); } else { assert w[..i] == log; }
    }
  }

  lemma MintedLater(log: seq<Step>, next: Id, st: Step)
    requires Provisional(log, next) && st.minted == MintIds(next, |st.minted|)
    ensures Provisional(log + [st], next - |st.minted|)
  {
    var a, b := Minteds(log), st.minted;
    assert (log + [st])[..|log|] == log;
    assert Minteds(log + [st]) == a + b;
    forall i, j | 0 <= i < j < |a + b| ensures (a + b)[i] != (a + b)[j] {
      if i < |a| && j >= |a| { assert a[i] in a; }
    }
  }

  // ── The mutations under way ────────────────────────────────────────────────

  lemma RefusedOk(a: System, s: Session, j: nat)
    requires SessionOk(a, s) && j < |s.air.planned|
    ensures SessionOk(a, Refused(s, j))
  {
    hide Started, ScopeOk, DeadOk, AirOk, Above;
    var n := Refused(s, j);
    forall i | 0 <= i < |n.air.planned| ensures n.air.planned[i] == s.air.planned[Place(j, i)] {}
    if AirOk(s.entries, s.air, Now(s)) { DroppedOk(s.entries, s.air, Now(s), j); }
    ScopeSame(s, n);
  }

  /** What a scope holds has nothing to do with what is only planned. */
  lemma ScopeSame(s: Session, n: Session)
    requires n == s.(air := n.air) && n.air.truth == s.air.truth
    ensures s.phase.Scoped? ==> forall t :: ScopeOk(n, t) == ScopeOk(s, t) && DeadOk(n, t) == DeadOk(s, t)
  {
  }

  /** What can still go to the database was planned on an unpoisoned view outside a scope; and if the
      epoch matches, everything committed before has been published. */
  lemma WritesFromQuiet(a: System, s: Session, j: nat)
    requires HistoryOk(a) && SessionOk(a, s) && !s.phase.Scoped? && Passes(s, j) && a.db.version == s.epoch
    ensures s.phase.Quiet? && !s.poisoned && s.air.recorded == [] && Started(s.air.truth, a.db.tree)
    ensures AirOk(s.entries, s.air, Now(s))
  {
    hide Started, ScopeOk, AirOk, Above, Sound;
  }

  /** A cache with nothing unpublished has the ids of the tree and no others. */
  lemma CachedIds(exact: bool, entries: PathView, truth: PathView)
    requires Holds(exact, entries, [], truth)
    ensures OnlyModes(truth, entries) && forall q :: q in entries ==> q in truth && entries[q].id == truth[q].id
  {
    DrainedIs(exact, entries, truth);
    assert forall q :: q in entries ==> q in truth.Keys;
  }

  lemma FreshUnborn(s: Session, t: Tree, x: Flight)
    requires AirOk(s.entries, s.air, Now(s)) && s.air.recorded == [] && Started(s.air.truth, t) && Fresh(t, x.ids)
    ensures Unborn(s.entries, s.air.recorded + [x])
  {
    CachedIds(s.air.exact, s.entries, s.air.truth);
    ViewIdsStored(s.air.truth, t);
    TruthStored(s.air.truth, t);
    assert s.air.recorded + [x] == [x];
    hide Started, AirOk;
  }

  lemma TruthStored(v: PathView, t: Tree)
    requires Started(v, t)
    ensures forall q :: q in v ==> v[q].id in t.inodes
  {
    hide WellFormed;
  }

  lemma WriteStep(a: System, i: Sid, j: nat, ids: seq<Id>, acknowledged: bool, b: System)
    requires Inv(a) && Enabled(a, Write(i, j, ids, acknowledged)) && NextWrite(a, i, j, ids, acknowledged, b)
    ensures Inv(b) && Grows(a, b)
  {
    hide Started, PlanOf, Publish, WriteDb, Valid, Fresh, AirOk, Sound;
    var s := a.sessions[i];
    assert SessionOk(a, s) && HistoryOk(a) && ChainOk(a);
    RefusedOk(a, s, j);
    var op := s.air.planned[j].flight.op;
    var r := WriteDb(a.db, s.epoch, op, ids);
    WriteChecks(a.db, s.epoch, op, ids);
    if Passes(s, j) && r.Some? {
      CommitStep(a, i, j, ids, b);
    } else {
      hide HistoryOk, ChainOk, SessionOk;
      SessionStep(a, b, i, b.sessions[i]);
    }
  }

  lemma CommitStep(a: System, i: Sid, j: nat, ids: seq<Id>, b: System)
    requires Inv(a) && i in a.sessions && j < |a.sessions[i].air.planned| && Passes(a.sessions[i], j)
    requires !a.sessions[i].phase.Scoped? && |ids| == Mints(a.sessions[i].air.planned[j].flight.op)
             && Fresh(a.db.tree, ids)
    requires var s := a.sessions[i];
             var r := WriteDb(a.db, s.epoch, s.air.planned[j].flight.op, ids);
             && r.Some? && a.db.version == s.epoch
             && (b == With(Commits(a, r.value), i, Refused(s, j)) ||
                 b == With(Commits(a, r.value), i,
                     s.(phase := Publishing(r.value.version), air := TakenOff(s.air, j, ids))))
    ensures Inv(b) && Grows(a, b)
  {
    hide Started, PlanOf, Publish, WriteDb, Valid, Fresh, AirOk, Sound, TakenOff, MintIds;
    var s := a.sessions[i];
    var x := s.air.planned[j].flight;
    var r := WriteDb(a.db, s.epoch, x.op, ids).value;
    assert SessionOk(a, s) && HistoryOk(a) && ChainOk(a);
    WritesFromQuiet(a, s, j);
    LiveStands(s.entries, s.air, Now(s), j);
    WriteStarted(s.air.truth, a.db, s.epoch, x.cmd, ids);
    WriteFresh(s.air.truth, a.db, s.epoch, x.cmd, ids);
    SoundTree(Publish(s.air.truth, x.cmd, ids), r.tree);
    CommitKeeps(a, r);
    var c := Commits(a, r);
    RefusedOk(a, s, j);
    OthersKeep(a, c, Refused(s, j));
    hide HistoryOk, ChainOk;
    TakesOff(a, s, j, ids, r);
    SessionStep(a, b, i, b.sessions[i]);
  }

  /** What went through did not clash with the tables. */
  lemma WriteFresh(v: PathView, db: Db, authority: nat, cmd: Cmd, ids: seq<Id>)
    requires Started(v, db.tree) && NormalCmd(cmd) && Valid(v, cmd) && !LinksRoot(cmd) && PlanOf(v, cmd).Does?
    requires |ids| == Mints(PlanOf(v, cmd).op) && Fresh(db.tree, ids)
    ensures WriteDb(db, authority, PlanOf(v, cmd).op, ids).Some? <==> db.version == authority && !Clashes(v, cmd)
  {
    hide PlanOf, Clashes, Valid, InStep, Run;
    if db.version == authority { SucceedsExactly(v, Tx(db.tree, db.version, 0), cmd, ids, authority); }
  }

  lemma SoundTree(v: PathView, t: Tree)
    requires Started(v, t)
    ensures Sound(t)
  {
  }

  lemma TakesOff(a: System, s: Session, j: nat, ids: seq<Id>, r: Db)
    requires SessionOk(a, s) && j < |s.air.planned| && Passes(s, j) && s.phase.Quiet? && !s.poisoned
             && s.air.recorded == []
    requires AirOk(s.entries, s.air, Now(s)) && Started(s.air.truth, a.db.tree) && Fresh(a.db.tree, ids)
    requires var x := s.air.planned[j].flight;
             && |ids| == Mints(x.op) && PlanOf(s.air.truth, x.cmd) == Does(x.op)
             && Started(Publish(s.air.truth, x.cmd, ids), r.tree) && !Clashes(s.air.truth, x.cmd)
    requires s.epoch == a.db.version < r.version
    ensures SessionOk(Commits(a, r), s.(phase := Publishing(r.version), air := TakenOff(s.air, j, ids)))
  {
    hide Started, PlanOf, Publish, AirOk, Unborn, Fresh, PhaseOk, Clashes;
    FreshUnborn(s, a.db.tree, Boarded(s.air, j, ids));
    TakenOffOk(s.entries, s.air, Now(s), j, ids);
    StampsFewer(s, j);
    var n := s.(phase := Publishing(r.version), air := TakenOff(s.air, j, ids));
    assert |n.air.recorded| == 1 && n.air.truth == Publish(s.air.truth, s.air.planned[j].flight.cmd, ids);
    assert StampsOk(n);
    PublishingOk(Commits(a, r), n);
  }

  lemma PublishingOk(a: System, s: Session)
    requires s.phase.Publishing? && s.phase.epoch in a.past && s.epoch < s.phase.epoch && |s.air.recorded| == 1
    requires Started(s.air.truth, a.past[s.phase.epoch])
    ensures PhaseOk(a, s)
  {
    hide Started;
  }

  lemma WriteChecks(db: Db, authority: nat, op: Op, ids: seq<Id>)
    requires |ids| == Mints(op)
    ensures WriteDb(db, authority, op, ids).Some? ==> db.version == authority
  {
  }

  /** Everything that can come of `finish`. */
  lemma EndOutcome(s: Session, db: Db, t: Tree, allocation: seq<seq<Id>>, fate: Fate)
    requires s.phase.Scoped? && ScopeOk(s, t) && (db.version == s.epoch ==> t == db.tree)
             && Assigns(db.tree, s.log, allocation)
    ensures |s.phase.journal| == |Kept(s.base, WithIds(s.log, allocation)).1|
    ensures var r := Finished(db, s.epoch, s.phase.lost, s.phase.journal, Kept(s.base, WithIds(s.log, allocation)).1,
            fate);
            var g := Eager(s.base, Tx(db.tree, db.version, 0), WithIds(s.log, allocation));
            && (r.0 == db || (db.version == s.epoch && r.0.version > db.version && Sound(r.0.tree) && g.Some?
               && r.0.tree == g.value.1.tree))
            && (r.1.Unchanged? ==> s.log == [])
            && (r.1.Failed? ==> r.1.reloadRequired == (s.log != []))
            && (r.1.Committed? ==>
               r.0 != db && r.1.epoch == r.0.version && Started(RenameIds(s.air.truth, r.1.remap), r.0.tree))
  {
    hide Started, Legal, Provisional, Kept, ReplayAll, ViewOf, Eager, RenameIds;
    KeptNonEmpty(s.base, s.log);
    SameRun(s.base, s.log, allocation);
    if db.version == s.epoch { FlushStarted(s, db, allocation); }
  }

  lemma EndStep(a: System, i: Sid, allocation: seq<seq<Id>>, fate: Fate, b: System)
    requires Inv(a) && Enabled(a, End(i, allocation, fate)) && NextEnd(a, i, allocation, fate, b)
    ensures Inv(b) && Grows(a, b)
  {
    EndKeepsClaims(a, i, allocation, fate, b);
    hide Inv, Enabled, NextEnd, HistoryOk, ChainOk, SessionOk;
    EndHistory(a, i, allocation, fate, b);
    SessionStep(a, b, i, b.sessions[i]);
  }

  lemma EndKeepsClaims(a: System, i: Sid, allocation: seq<seq<Id>>, fate: Fate, b: System)
    requires Enabled(a, End(i, allocation, fate)) && NextEnd(a, i, allocation, fate, b)
    ensures i in a.sessions && i in b.sessions && b.sessions[i].claims == a.sessions[i].claims
  {
    hide Kept, Finished, WithIds, Assigns;
  }

  lemma EndHistory(a: System, i: Sid, allocation: seq<seq<Id>>, fate: Fate, b: System)
    requires Inv(a) && Enabled(a, End(i, allocation, fate)) && NextEnd(a, i, allocation, fate, b)
    ensures Grows(a, b) && HistoryOk(b) && ChainOk(b)
    ensures i in b.sessions && b.sessions == a.sessions[i := b.sessions[i]] && SessionOk(b, b.sessions[i])
  {
    hide NextEnd, Inv, SessionOk, Assigns, Grows, HistoryOk, ChainOk;
    if Dead(a.sessions[i]) {
      DeadEndHistory(a, i, allocation, fate, b);
    } else {
      LiveEndHistory(a, i, allocation, fate, b);
    }
  }

  lemma LiveEndHistory(a: System, i: Sid, allocation: seq<seq<Id>>, fate: Fate, b: System)
    requires Inv(a) && Enabled(a, End(i, allocation, fate)) && NextEnd(a, i, allocation, fate, b)
             && !Dead(a.sessions[i])
    ensures Grows(a, b) && HistoryOk(b) && ChainOk(b)
    ensures i in b.sessions && b.sessions == a.sessions[i := b.sessions[i]] && SessionOk(b, b.sessions[i])
  {
    hide Started, ScopeOk, Kept, Eager, RenameIds, Sound, Finished, WithIds, NextEnd;
    var s := a.sessions[i];
    ScopeAt(a, i);
    EndOutcome(s, a.db, a.past[s.epoch], allocation, fate);
    NoExtra(a, i, allocation, fate, b);
    var stored := Kept(s.base, WithIds(s.log, allocation)).1;
    var r := Finished(a.db, s.epoch, s.phase.lost, s.phase.journal, stored, fate);
    assert SessionOk(a, s);
    assert HistoryOk(a) && ChainOk(a);
    hide Inv, HistoryOk, ChainOk;
    if r.0 != a.db { CommitKeeps(a, r.0); }
    if s.log == [] { EmptyScope(s, a.past[s.epoch]); }
    ScopeCloses(s, Settled(s, r.1));
    hide AirOk, StampsOk, Idle, Above;
    var c := if r.0 == a.db then a else Commits(a, r.0);
    SameHistory(With(c, i, Settled(s, r.1)), c);
  }

  /** Outside a doomed scope the journal is what the log kept, and so the end is determined. */
  lemma NoExtra(a: System, i: Sid, allocation: seq<seq<Id>>, fate: Fate, b: System)
    requires Enabled(a, End(i, allocation, fate)) && NextEnd(a, i, allocation, fate, b)
    requires var s := a.sessions[i]; |s.phase.journal| == |Kept(s.base, WithIds(s.log, allocation)).1|
    ensures b == Ended(a, i, a.sessions[i], allocation, [], fate)
    ensures var s := a.sessions[i];
            var r := Finished(a.db, s.epoch, s.phase.lost, s.phase.journal, Kept(s.base, WithIds(s.log, allocation)).1,
                fate);
            b == With(if r.0 == a.db then a else Commits(a, r.0), i, Settled(s, r.1))
  {
    hide Kept, Finished, WithIds, Allocated;
    var s := a.sessions[i];
    var stored := Kept(s.base, WithIds(s.log, allocation)).1;
    var none: seq<seq<Id>> := [];
    assert stored + none == stored;
    var extra: seq<seq<Id>> :|
      && |s.phase.journal| == |Kept(s.base, WithIds(s.log, allocation)).1| + |extra|
      && b == Ended(a, i, s, allocation, extra, fate);
    assert extra == none;
  }

  /** A log whose last command clashes cannot be run: not at once, and so not by the flush. */
  lemma ClashNeverCommits(v: PathView, tx: Tx, log: seq<Step>)
    requires Started(v, tx.tree) && Legal(v, log) && Allocated(tx.tree, log) && log != []
    requires Clashes(ViewOf(v, log[..|log| - 1]), log[|log| - 1].cmd)
    ensures Eager(v, tx, log).None?
  {
    hide Started, Legal, Allocated, Clashes, ViewOf, Eager;
    RunsExactly(v, tx, log);
    NoneClashesLast(v, log);
  }

  /** Whatever a doomed scope recorded and whatever becomes of its flush, nothing is stored. */
  lemma DeadEnds(s: Session, db: Db, t: Tree, allocation: seq<seq<Id>>, extra: seq<seq<Id>>, fate: Fate)
    requires s.phase.Scoped? && DeadOk(s, t) && (db.version == s.epoch ==> t == db.tree)
             && Assigns(db.tree, s.log, allocation)
    requires |s.phase.journal| == |Kept(s.base, WithIds(s.log, allocation)).1| + |extra|
    ensures Finished(db, s.epoch, s.phase.lost, s.phase.journal, Kept(s.base, WithIds(s.log, allocation)).1 + extra,
            fate)
            == (db, Failed(true))
  {
    hide Started, Legal, Provisional, ReplayAll, ViewOf, Eager, Clashes, Kept, Allocated;
    var log := WithIds(s.log, allocation);
    var kept := Kept(s.base, log);
    var stored := kept.1 + extra;
    SameRun(s.base, s.log, allocation);
    if db.version == s.epoch {
      var tx := Tx(db.tree, db.version, 0);
      SameLegal(s.base, s.log, allocation);
      ClashKept(s, allocation);
      ClashNeverCommits(s.base, tx, log);
      BufferedRefinesEager(s.base, tx, log, db.version);
      var n := |kept.0|;
      assert s.phase.journal[..n] == kept.0 && stored[..n] == kept.1;
      ReplayStuck(tx, s.phase.journal, stored, db.version, n);
    }
  }

  lemma ClashKept(s: Session, allocation: seq<seq<Id>>)
    requires |allocation| == |s.log| > 0
    ensures var log, n := WithIds(s.log, allocation), |s.log| - 1;
            ViewOf(s.base, log[..n]) == ViewOf(s.base, s.log[..n]) && log[n].cmd == s.log[n].cmd
  {
    hide ViewOf;
    var n := |s.log| - 1;
    assert WithIds(s.log, allocation)[..n] == WithIds(s.log[..n], allocation[..n]);
    SameRun(s.base, s.log[..n], allocation[..n]);
  }

  lemma DeadAt(a: System, i: Sid)
    requires Inv(a) && i in a.sessions && Dead(a.sessions[i])
    ensures var s := a.sessions[i];
            && s.epoch in a.past && DeadOk(s, a.past[s.epoch]) && StampsOk(s) && s.next < 0 && !s.poisoned
            && (a.db.version == s.epoch ==> a.past[s.epoch] == a.db.tree)
  {
    hide DeadOk, AirOk, StampsOk, Above, Sound, NoneClashes;
    assert SessionOk(a, a.sessions[i]);
  }

  lemma RecoveringOk(a: System, s: Session, n: Session)
    requires s.phase.Scoped? && StampsOk(s) && s.next < 0 && s.air.recorded == [] && !s.poisoned
    requires n == s.(phase := Recovering)
    ensures SessionOk(a, n)
  {
    DeadCloses(s, n);
  }

  lemma DeadEndHistory(a: System, i: Sid, allocation: seq<seq<Id>>, fate: Fate, b: System)
    requires Inv(a) && Enabled(a, End(i, allocation, fate)) && NextEnd(a, i, allocation, fate, b) && Dead(a.sessions[i])
    ensures Grows(a, b) && HistoryOk(b) && ChainOk(b) && b.db == a.db
    ensures i in b.sessions && b.sessions == a.sessions[i := b.sessions[i]] && SessionOk(b, b.sessions[i])
    ensures b.sessions[i].phase.Recovering?
  {
    hide DeadOk, Kept, Finished, WithIds, HistoryOk, ChainOk, SessionOk, StampsOk, Allocated;
    var s := a.sessions[i];
    DeadAt(a, i);
    var extra: seq<seq<Id>> :|
      && |s.phase.journal| == |Kept(s.base, WithIds(s.log, allocation)).1| + |extra|
      && b == Ended(a, i, s, allocation, extra, fate);
    DeadEnds(s, a.db, a.past[s.epoch], allocation, extra, fate);
    SameHistory(b, a);
    RecoveringOk(b, s, b.sessions[i]);
  }

  /** A doomed scope can end, and then waits for a reload. */
  lemma DeadScopeEnds(a: System, i: Sid, allocation: seq<seq<Id>>, fate: Fate)
    requires Inv(a) && Enabled(a, End(i, allocation, fate)) && Dead(a.sessions[i])
    ensures NextEnd(a, i, allocation, fate, With(a, i, a.sessions[i].(phase := Recovering)))
  {
    hide Inv, Started, Legal, Provisional, ViewOf, Kept, Finished, WithIds, Allocated, SumBytes, Clashes;
    var s := a.sessions[i];
    DeadAt(a, i);
    SameRun(s.base, s.log, allocation);
    var kept := Kept(s.base, WithIds(s.log, allocation)).1;
    assert |kept| <= |s.phase.journal|;
    var extra: seq<seq<Id>> := seq(|s.phase.journal| - |kept|, _ => []);
    DeadEnds(s, a.db, a.past[s.epoch], allocation, extra, fate);
    assert With(a, i, s.(phase := Recovering)) == Ended(a, i, s, allocation, extra, fate);
  }

  lemma DeadCloses(s: Session, n: Session)
    requires s.phase.Scoped? && StampsOk(s) && s.air.recorded == [] && n == s.(phase := n.phase) && !n.phase.Scoped?
    ensures StampsOk(n) && Idle(n)
  {
  }

  lemma SameHistory(b: System, c: System)
    requires b.db == c.db && b.past == c.past && b.commits == c.commits
    ensures HistoryOk(b) == HistoryOk(c) && ChainOk(b) == ChainOk(c)
  {
  }

  lemma EmptyScope(s: Session, t: Tree)
    requires s.phase.Scoped? && ScopeOk(s, t) && (s.phase.journal == [] || s.log == [])
    ensures s.log == [] && s.phase.journal == [] && s.air.truth == s.base && Started(s.air.truth, t)
  {
    KeptNonEmpty(s.base, s.log);
  }

  /** When a scope ends, whatever was still planned in it is dead. */
  lemma ScopeCloses(s: Session, n: Session)
    requires s.phase.Scoped? && StampsOk(s) && s.air.recorded == [] && AirOk(s.entries, s.air, Now(s))
    requires n == s.(phase := n.phase) && !n.phase.Scoped?
    ensures StampsOk(n) && Idle(n) && AirOk(n.entries, n.air, Now(n))
  {
    hide Holds;
    Restamped(s.entries, s.air, Now(s), Now(n));
  }

  predicate Matches(exact: bool, v: PathView, truth: PathView, q: Path) {
    (q in v <==> q in truth) && (q in v && q in truth ==> Alike(exact, v[q], truth[q]))
  }

  lemma GroundHolds(exact: bool, v: PathView, truth: PathView)
    requires forall q :: Matches(exact, v, truth, q)
    ensures Holds(exact, v, [], truth)
  {
    var none: seq<Flight> := [];
    forall q ensures TrackedAt(exact, v, none, truth, q) {
      assert Matches(exact, v, truth, q);
    }
  }

  /** Renaming ids keeps a cache and the view it is due to be alike. */
  lemma RenamedAlike(exact: bool, v: PathView, truth: PathView, f: Remap)
    requires Holds(exact, v, [], truth)
    ensures Holds(exact, RenameIds(v, f), [], RenameIds(truth, f))
  {
    CachedIds(exact, v, truth);
    DrainedIs(exact, v, truth);
    forall q ensures Matches(exact, RenameIds(v, f), RenameIds(truth, f), q) {
      assert q in v <==> q in truth.Keys;
    }
    GroundHolds(exact, RenameIds(v, f), RenameIds(truth, f));
  }

  lemma RenamedOk(s: Session, f: Remap)
    requires Idle(s) && AirOk(s.entries, s.air, Now(s)) && !s.phase.Scoped?
    ensures var n := Renamed(s, f); AirOk(n.entries, n.air, Now(n)) && Idle(n)
  {
    hide Holds, Closed;
    RenamedAlike(s.air.exact, s.entries, s.air.truth, f);
    ClosedSame(s.entries, RenameIds(s.entries, f));
    ClosedSame(s.air.truth, RenameIds(s.air.truth, f));
  }

  lemma PublishedScopeStep(a: System, i: Sid, b: System)
    requires Inv(a) && Enabled(a, PublishScope(i)) && NextPublishScope(a, i, b)
    ensures Inv(b) && Grows(a, b) && i in b.sessions && b.sessions[i].phase.Quiet? && !b.sessions[i].poisoned
  {
    hide Started, ScopeOk, Sound, RenameIds, AirOk, Above;
    var s := a.sessions[i];
    var f := s.phase.settlement.remap;
    assert SessionOk(a, s);
    NothingUnbound(s.air.truth, f, a.past[s.phase.settlement.epoch]);
    RenamedOk(s, f);
    SameIds(s, f);
    hide HistoryOk, ChainOk;
    SessionStep(a, b, i, b.sessions[i]);
  }

  lemma SameIds(s: Session, f: Remap)
    requires AirOk(s.entries, s.air, Now(s)) && s.air.recorded == []
    ensures forall p :: p in RenameIds(s.entries, f) ==>
              p in s.air.truth && RenameIds(s.entries, f)[p].id == RenameIds(s.air.truth, f)[p].id
  {
    CachedIds(s.air.exact, s.entries, s.air.truth);
    hide AirOk;
  }

  /** The sweep for provisional ids after a flush never finds one. */
  lemma NothingUnbound(v: PathView, f: Remap, t: Tree)
    requires Started(RenameIds(v, f), t)
    ensures forall p :: p in v ==> RenameIds(v, f)[p].id > 0
  {
    hide WellFormed;
    forall p | p in v ensures RenameIds(v, f)[p].id > 0 { assert p in RenameIds(v, f); }
  }

  lemma ClaimStep(a: System, i: Sid, acknowledged: bool, b: System)
    requires Inv(a) && Enabled(a, Claim(i, acknowledged)) && NextClaim(a, i, acknowledged, b)
    ensures Inv(b) && Grows(a, b)
  {
    hide Started, ScopeOk, Sound, AirOk, NoneLive, Above, SessionOk;
    var s, db := a.sessions[i], a.db.(version := a.db.version + 1);
    CommitKeeps(a, db);
    assert Grows(a, b) && HistoryOk(b) && ChainOk(b);
    OthersKeep(a, b, s);
    ClaimsApart(b, s, b.sessions[i]);
    assert a.past[a.db.version] == a.db.tree == b.past[db.version];
    hide HistoryOk, ChainOk;
    SessionStep(a, b, i, b.sessions[i]);
  }

  lemma ClaimsApart(a: System, s: Session, n: Session)
    requires n == s.(claims := n.claims)
    ensures SessionOk(a, n) == SessionOk(a, s)
  {
    hide Started, AirOk, Above, Legal, Provisional, Kept, ViewOf, NoneClashes;
  }

  /** What a session holds but for its phase does not depend on its epoch. */
  lemma EpochApart(s: Session, n: Session)
    requires n == s.(claims := n.claims, epoch := n.epoch)
    ensures StampsOk(n) == StampsOk(s) && Idle(n) == Idle(s) && Now(n) == Now(s) && Dead(n) == Dead(s)
    ensures s.phase.Scoped? ==> forall t :: ScopeOk(n, t) == ScopeOk(s, t) && DeadOk(n, t) == DeadOk(s, t)
  {
    hide Started, Legal, Provisional, Kept, ViewOf, SumBytes, Clashes;
  }

  lemma CertifiedOk(a: System, s: Session, c: nat)
    requires SessionOk(a, s) && ClaimsOk(a, s) && c < |s.claims| && !s.phase.Publishing?
    ensures SessionOk(a, Certified(s, c))
  {
    EpochApart(s, Certified(s, c));
    hide Started, AirOk, Above, NoneClashes, ScopeOk, DeadOk, StampsOk, Idle, Now, Dead;
  }

  lemma ClaimsFewer(a: System, s: Session, c: nat)
    requires ClaimsOk(a, s) && c < |s.claims|
    ensures ClaimsOk(a, Certified(s, c))
  {
    var n := Certified(s, c);
    forall d | 0 <= d < |n.claims|
      ensures n.claims[d].checked in a.past && n.claims[d].result in a.past
              && a.past[n.claims[d].checked] == a.past[n.claims[d].result]
    {
      assert n.claims[d] == s.claims[Place(c, d)];
    }
  }

  lemma CertifyFrom(a: System, i: Sid, c: nat, b: System)
    requires Next(a, Certify(i, c), b)
    ensures i in a.sessions && c < |a.sessions[i].claims| && !a.sessions[i].phase.Publishing?
    ensures b == With(a, i, Certified(a.sessions[i], c))
  {
  }

  lemma CertifyStep(a: System, i: Sid, c: nat, b: System)
    requires Inv(a) && i in a.sessions && c < |a.sessions[i].claims| && !a.sessions[i].phase.Publishing?
    requires b == With(a, i, Certified(a.sessions[i], c))
    ensures Inv(b) && Grows(a, b)
  {
    hide SessionOk, ClaimsOk, Certified, HistoryOk, ChainOk;
    CertifiedOk(a, a.sessions[i], c);
    ClaimsFewer(a, a.sessions[i], c);
    SameHistory(b, a);
    OthersKeep(a, b, b.sessions[i]);
    SessionStep(a, b, i, b.sessions[i]);
  }

  lemma LoadStep(a: System, ev: Event, b: System)
    requires Inv(a) && Enabled(a, ev) && NextLocal(a, ev, b) && (ev.Install? || ev.LoadFails?)
    ensures Inv(b) && Grows(a, b)
  {
    hide Started, ScopeOk, DeadOk, Sound, AirOk, Above, Closed;
    var s := a.sessions[ev.i];
    assert SessionOk(a, s) && HistoryOk(a);
    if ev.Install? {
      LoadedView(a, ev.at, ev.rows);
      StartedClosed(ev.rows, a.past[ev.at]);
      GroundedOk(ev.rows, s.air.planned, Now(s));
      assert Now(b.sessions[ev.i]) == Now(s);
    }
    hide HistoryOk, ChainOk;
    SessionStep(a, b, ev.i, b.sessions[ev.i]);
  }

  lemma StartedClosed(v: PathView, t: Tree)
    requires Started(v, t)
    ensures Closed(v)
  {
    hide InStep, Closed;
    MirrorClosed(v, t);
  }

  lemma PlanStep(a: System, ev: Event, b: System)
    requires Inv(a) && Enabled(a, ev) && NextLocal(a, ev, b) && (ev.Plan? || ev.GiveUp?)
    ensures Inv(b) && Grows(a, b)
  {
    hide Started, Sound, AirOk, Above, MayPlan, PlanOf, Planning, ScopeOk, DeadOk;
    var s := a.sessions[ev.i];
    assert SessionOk(a, s);
    if ev.Plan? {
      if !Dead(s) { PlannedOk(s.entries, s.air, Now(s), ev.cmd, ev.held); }
      ScopeSame(s, b.sessions[ev.i]);
    } else {
      RefusedOk(a, s, ev.j);
      hide SessionOk;
    }
    hide HistoryOk, ChainOk;
    SessionStep(a, b, ev.i, b.sessions[ev.i]);
  }

  lemma ScopeStep(a: System, ev: Event, b: System)
    requires Inv(a) && Enabled(a, ev) && NextLocal(a, ev, b) && (ev.Begin? || ev.Lose? || ev.Abort?)
    ensures Inv(b) && Grows(a, b)
  {
    hide Started, Sound, AirOk, ScopeOk, DeadOk, Above, StampsOk, Idle, HistoryOk, ChainOk;
    var s, n := a.sessions[ev.i], b.sessions[ev.i];
    assert SessionOk(a, s);
    SameHistory(b, a);
    if ev.Begin? {
      ScopeStarts(s, n, a.past[s.epoch]);
    } else if ev.Lose? {
      LosesScope(s, n);
    } else if Dead(s) {
      DeadJournal(s, a.past[s.epoch]);
      DeadCloses(s, n);
    } else {
      ScopeCloses(s, n);
      if s.phase.journal == [] { EmptyScope(s, a.past[s.epoch]); }
    }
    SessionStep(a, b, ev.i, n);
  }

  lemma LosesScope(s: Session, n: Session)
    requires s.phase.Scoped? && n == s.(phase := s.phase.(lost := true))
    ensures StampsOk(n) == StampsOk(s) && forall t :: ScopeOk(n, t) == ScopeOk(s, t) && DeadOk(n, t) == DeadOk(s, t)
  {
  }

  lemma DeadJournal(s: Session, t: Tree)
    requires s.phase.Scoped? && DeadOk(s, t)
    ensures s.phase.journal != [] && s.log != []
  {
  }

  lemma ScopeStarts(s: Session, n: Session, t: Tree)
    requires s.phase.Quiet? && AirOk(s.entries, s.air, Now(s)) && s.air.recorded == [] && Started(s.air.truth, t)
             && s.next < 0
    requires StampsOk(s)
    requires n == s.(phase := Scoped(false, [], 0), generation := s.generation + 1, base := s.air.truth, log := [],
                     doomed := false)
    ensures ScopeOk(n, t) && Above(n.entries, n.air.recorded, n.next) && StampsOk(n) && AirOk(n.entries, n.air, Now(n))
  {
    CachedIds(s.air.exact, s.entries, s.air.truth);
    ViewIdsStored(s.air.truth, t);
    hide AirOk, Started;
    Restamped(s.entries, s.air, Now(s), Now(n));
  }

  lemma RecordStep(a: System, i: Sid, j: nat, bytes: nat, b: System)
    requires Inv(a) && Enabled(a, Record(i, j, bytes)) && NextLocal(a, Record(i, j, bytes), b)
    ensures Inv(b) && Grows(a, b)
  {
    hide Started, Sound, PlanOf, Recorded, AirOk, Above, ScopeOk, DeadOk;
    var s := a.sessions[i];
    assert SessionOk(a, s);
    if Passes(s, j) {
      RecordsOk(a, s, j, bytes);
      RecordKeepsClaims(s, a.caps, j, bytes);
    } else {
      RefusedOk(a, s, j);
      RefusedRecord(s, a.caps, j, bytes);
    }
    hide HistoryOk, ChainOk, SessionOk;
    SessionStep(a, b, i, b.sessions[i]);
  }

  lemma RecordKeepsClaims(s: Session, caps: Caps, j: nat, bytes: nat)
    requires s.phase.Scoped? && j < |s.air.planned|
    ensures Recorded(s, caps, j, bytes).claims == s.claims
  {
    hide PlanOf, Publish, Clashes, Fits, Keep, SumBytes, MintIds, TakenOff;
  }

  lemma RefusedRecord(s: Session, caps: Caps, j: nat, bytes: nat)
    requires s.phase.Scoped? && j < |s.air.planned| && !Passes(s, j)
    ensures Recorded(s, caps, j, bytes) == Refused(s, j)
  {
  }

  lemma RecordsOk(a: System, s: Session, j: nat, bytes: nat)
    requires SessionOk(a, s) && s.phase.Scoped? && j < |s.air.planned| && Passes(s, j)
    ensures SessionOk(a, Recorded(s, a.caps, j, bytes))
  {
    hide SessionOk, Recorded;
    if s.doomed { DeadRecords(a, s, j, bytes); } else { LiveRecords(a, s, j, bytes); }
  }

  lemma LiveRecords(a: System, s: Session, j: nat, bytes: nat)
    requires SessionOk(a, s) && s.phase.Scoped? && j < |s.air.planned| && Passes(s, j) && !s.doomed
    ensures SessionOk(a, Recorded(s, a.caps, j, bytes))
  {
    hide Started, PlanOf, AirOk, Above, ScopeOk, DeadOk, Publish, Valid, Keep, SumBytes, MintIds, Fits, Clashes,
         NoneClashes;
    ScopeTruth(s, a.past[s.epoch]);
    var x, r := s.air.planned[j].flight, Recorded(s, a.caps, j, bytes);
    var minted := MintIds(s.next, Mints(x.op));
    LiveStands(s.entries, s.air, Now(s), j);
    RecordKeeps(s, a.caps, j, bytes, a.past[s.epoch]);
    DroppedOk(s.entries, s.air, Now(s), j);
    RecordedUnborn(s);
    hide Unborn;
    AboveMore(s.entries, s.air.recorded, s.next, Boarded(s.air, j, minted));
    StampsFewer(s, j);
    if Clashes(s.air.truth, x.cmd) {
      if Fits(s.phase.journal, s.phase.bytes, Buffered(x.op, minted, bytes), a.caps) {
        Dooms(s, a.caps, j, bytes, a.past[s.epoch]);
      }
    } else {
      TakenOffOk(s.entries, s.air, Now(s), j, minted);
      CalmMore(s.base, s.log, Step(x.cmd, minted, minted, bytes));
    }
  }

  lemma ScopeTruth(s: Session, t: Tree)
    requires s.phase.Scoped? && ScopeOk(s, t)
    ensures s.air.truth == ViewOf(s.base, s.log)
  {
  }

  lemma CalmMore(v: PathView, log: seq<Step>, s: Step)
    requires NoneClashes(v, log) && !Clashes(ViewOf(v, log), s.cmd)
    ensures NoneClashes(v, log + [s])
  {
    hide NoneClashes, Clashes, ViewOf;
    assert (log + [s])[..|log|] == log;
    NoneClashesLast(v, log + [s]);
  }

  lemma ClashOp(v: PathView, cmd: Cmd)
    requires Clashes(v, cmd) && PlanOf(v, cmd).Does?
    ensures !PlanOf(v, cmd).op.WriteOp?
  {
  }

  /** Recording a command that clashes dooms the scope. */
  lemma Dooms(s: Session, caps: Caps, j: nat, bytes: nat, t: Tree)
    requires s.phase.Scoped? && ScopeOk(s, t) && s.next < 0 && j < |s.air.planned| && Passes(s, j) && !s.doomed
    requires var x := s.air.planned[j].flight;
             && NormalCmd(x.cmd) && Valid(s.air.truth, x.cmd) && !LinksRoot(x.cmd)
                && PlanOf(s.air.truth, x.cmd) == Does(x.op)
             && Clashes(s.air.truth, x.cmd)
             && Fits(s.phase.journal, s.phase.bytes, Buffered(x.op, MintIds(s.next, Mints(x.op)), bytes), caps)
    requires ScopeOk(Recorded(s, caps, j, bytes), t)
    ensures DeadOk(Recorded(s, caps, j, bytes), t)
  {
    hide Started, PlanOf, Publish, Valid, Legal, Provisional, ViewOf, Kept, SumBytes, MintIds, Charged, Mints, Clashes;
    var x, r := s.air.planned[j].flight, Recorded(s, caps, j, bytes);
    ClashOp(s.air.truth, x.cmd);
    KeptNonEmpty(r.base, r.log);
    assert r.log[..|s.log|] == s.log;
    assert r.phase.journal[|r.phase.journal| - 1].op == x.op;
  }

  lemma KeepsPrefix(kept: seq<Buffered>, journal: seq<Buffered>, b: Buffered)
    requires kept != [] && kept <= journal && !kept[|kept| - 1].op.WriteOp?
    ensures kept <= Keep(journal, b)
  {
    assert journal[..|kept|] == kept;
  }

  lemma DeadRecords(a: System, s: Session, j: nat, bytes: nat)
    requires SessionOk(a, s) && s.phase.Scoped? && j < |s.air.planned| && Passes(s, j) && s.doomed
    ensures SessionOk(a, Recorded(s, a.caps, j, bytes))
  {
    hide Started, PlanOf, AirOk, Above, ScopeOk, Publish, Keep, SumBytes, MintIds, Charged, Legal, Provisional, Kept,
         Clashes, ViewOf;
    var x := s.air.planned[j].flight;
    var b := Buffered(x.op, MintIds(s.next, Mints(x.op)), bytes);
    KeepCharges(s.phase.journal, b);
    KeepsPrefix(Kept(s.base, s.log).0, s.phase.journal, b);
    ProvisionalLater(s.log, s.next, Mints(x.op));
    StampsFewer(s, j);
  }

  lemma ProvisionalLater(log: seq<Step>, next: Id, n: nat)
    requires Provisional(log, next)
    ensures Provisional(log, next - n)
  {
  }

  lemma RecordedUnborn(s: Session)
    requires AirOk(s.entries, s.air, Now(s))
    ensures Unborn(s.entries, s.air.recorded)
  {
  }

  lemma StampsFewer(s: Session, j: nat)
    requires StampsOk(s) && j < |s.air.planned|
    ensures StampsOk(Refused(s, j))
  {
    forall i | 0 <= i < |Refused(s, j).air.planned| ensures Refused(s, j).air.planned[i]
        == s.air.planned[Place(j, i)] {}
  }

  /** Ids minted now are new. */
  lemma AboveMore(entries: PathView, recorded: seq<Flight>, next: Id, x: Flight)
    requires Above(entries, recorded, next) && x.ids == MintIds(next, |x.ids|) && next < 0
    requires Unborn(entries, recorded)
    ensures Unborn(entries, recorded + [x]) && Above(entries, recorded + [x], next - |x.ids|)
    ensures Above(entries, recorded, next - |x.ids|)
  {
    forall id | id in x.ids ensures next - |x.ids| < id <= next {
      var i :| 0 <= i < |x.ids| && x.ids[i] == id;
    }
    var ys := recorded + [x];
    forall k, q | 0 <= k < |ys| && q in entries ensures entries[q].id !in ys[k].ids {
      if k < |recorded| { assert ys[k] == recorded[k]; }
    }
    forall i, k, id | 0 <= i < k < |ys| && id in ys[i].ids ensures id !in ys[k].ids {
      assert ys[i] == recorded[i];
      if k < |recorded| { assert ys[k] == recorded[k]; }
    }
  }

  lemma LandStep(a: System, i: Sid, k: nat, b: System)
    requires Inv(a) && Enabled(a, Land(i, k)) && NextLocal(a, Land(i, k), b)
    ensures Inv(b) && Grows(a, b)
  {
    hide SessionOk, PlanOf, Landed, Clean, InTurn, HistoryOk, ChainOk;
    if Dead(a.sessions[i]) { DeadLandStep(a, i, k, b); } else { LiveLandStep(a, i, k, b); }
  }

  lemma DeadLandStep(a: System, i: Sid, k: nat, b: System)
    requires Inv(a) && Enabled(a, Land(i, k)) && NextLocal(a, Land(i, k), b) && Dead(a.sessions[i])
    ensures Inv(b) && Grows(a, b)
  {
    hide AirOk, Above, ScopeOk, DeadOk, Clean, InTurn, HistoryOk, ChainOk;
    var s := a.sessions[i];
    assert SessionOk(a, s);
    SameHistory(b, a);
    DeadLands(s, b.sessions[i]);
    SessionStep(a, b, i, b.sessions[i]);
  }

  lemma LiveLandStep(a: System, i: Sid, k: nat, b: System)
    requires Inv(a) && Enabled(a, Land(i, k)) && NextLocal(a, Land(i, k), b) && !Dead(a.sessions[i])
    ensures Inv(b) && Grows(a, b)
  {
    hide Started, PlanOf, AirOk, Above, ScopeOk, DeadOk, Landed, Clean, InTurn, HistoryOk, ChainOk;
    var s := a.sessions[i];
    assert SessionOk(a, s);
    SameHistory(b, a);
    ArrivedOk(s.entries, s.air, Now(s), k);
    if s.phase.Scoped? {
      LandedAbove(s, k);
      LandingScope(s, k);
    }
    SessionStep(a, b, i, b.sessions[i]);
  }

  lemma DeadLands(s: Session, n: Session)
    requires s.phase.Scoped? && n == s.(entries := n.entries, air := n.air) && n.air.planned == s.air.planned
    ensures StampsOk(n) == StampsOk(s) && forall t :: DeadOk(n, t) == DeadOk(s, t)
  {
  }

  lemma LandingScope(s: Session, k: nat)
    requires s.phase.Scoped? && k < |s.air.recorded|
    requires PlanOf(s.entries, s.air.recorded[k].cmd) == Does(s.air.recorded[k].op) && Given(s.air.recorded[k])
    ensures forall t :: ScopeOk(Landing(s, k), t) == ScopeOk(s, t)
  {
  }

  lemma LandedAbove(s: Session, k: nat)
    requires AirOk(s.entries, s.air, Now(s)) && k < |s.air.recorded| && Above(s.entries, s.air.recorded, s.next)
    ensures Stands(s.entries, s.air.recorded[k]) && Given(s.air.recorded[k])
    ensures Above(Landed(s.entries, s.air.recorded[k]), Without(s.air.recorded, k), s.next)
  {
    var v, xs := s.entries, s.air.recorded;
    assert Stands(v, xs[k]) && Given(xs[k]);
    var cs := Published(v, xs[k]);
    forall i | 0 <= i < |cs| && cs[i].Put? ensures cs[i].entry.id in xs[k].ids || Named(v, cs[i].entry.id) {
      PublishedName(v, xs[k], i);
    }
    hide AirOk, Stands, Published, PlanOf;
    forall q | q in Landed(v, xs[k]) ensures Landed(v, xs[k])[q].id > s.next { ChangesName(v, cs, xs[k].ids, q); }
    forall j, id | 0 <= j < |Without(xs, k)| && id in Without(xs, k)[j].ids ensures id > s.next { WithoutAt(xs, k, j); }
  }

  /** Every step keeps the invariant, and history is only ever added to. */
  lemma StepInv(a: System, ev: Event, b: System)
    requires Inv(a) && Next(a, ev, b)
    ensures Inv(b) && Grows(a, b)
  {
    hide Inv, Enabled, NextWrite, NextEnd, NextPublishScope, NextClaim, NextLocal, Grows;
    match ev
    case Write(i, j, ids, acknowledged) => WriteStep(a, i, j, ids, acknowledged, b);
    case End(i, allocation, fate) => EndStep(a, i, allocation, fate, b);
    case PublishScope(i) => PublishedScopeStep(a, i, b);
    case Claim(i, acknowledged) => ClaimStep(a, i, acknowledged, b);
    case Certify(i, c) =>
      CertifyFrom(a, i, c, b);
      CertifyStep(a, i, c, b);
    case Record(i, j, bytes) => RecordStep(a, i, j, bytes, b);
    case Land(i, k) => LandStep(a, i, k, b);
    case Plan(_, _, _) => PlanStep(a, ev, b);
    case GiveUp(_, _) => PlanStep(a, ev, b);
    case Install(_, _, _) => LoadStep(a, ev, b);
    case LoadFails(_) => LoadStep(a, ev, b);
    case _ => ScopeStep(a, ev, b);
  }

  // ── Whole runs ─────────────────────────────────────────────────────────────

  ghost predicate Behaviour(states: seq<System>, events: seq<Event>) {
    && |states| == |events| + 1 && Init(states[0])
    && forall n :: 0 <= n < |events| ==> Next(states[n], events[n], states[n + 1])
  }

  lemma {:induction false} RunInv(states: seq<System>, events: seq<Event>, n: nat)
    requires Behaviour(states, events) && n < |states|
    ensures Inv(states[n])
    decreases n
  {
    hide Next, Init, Inv;
    if n == 0 {
      InitInv(states[0]);
    } else {
      RunInv(states, events, n - 1);
      StepInv(states[n - 1], events[n - 1], states[n]);
    }
  }

  lemma SettledAt(a: System, i: Sid)
    requires Inv(a) && i in a.sessions && a.sessions[i].phase.Quiet? && !a.sessions[i].poisoned
    ensures var s := a.sessions[i];
            && s.epoch in a.past && s.epoch <= a.db.version
               && (s.epoch == a.db.version ==> a.past[s.epoch] == a.db.tree)
            && s.air.recorded == [] && Started(s.air.truth, a.past[s.epoch]) && OnlyModes(s.air.truth, s.entries)
            && (s.air.exact ==> s.entries == s.air.truth)
  {
    hide Started, AirOk, Sound;
    var s := a.sessions[i];
    assert SessionOk(a, s) && HistoryOk(a);
    hide HistoryOk, ChainOk;
    AirDrained(s);
  }

  lemma AirDrained(s: Session)
    requires AirOk(s.entries, s.air, Now(s)) && s.air.recorded == []
    ensures OnlyModes(s.air.truth, s.entries) && (s.air.exact ==> s.entries == s.air.truth)
  {
    DrainedIs(s.air.exact, s.entries, s.air.truth);
  }

  /** Every publication of the session since its last load was clean. */
  ghost predicate CleanSince(states: seq<System>, events: seq<Event>, n: nat, i: Sid)
    requires |states| == |events| + 1 && n < |states|
    decreases n
  {
    n > 0 &&
    match events[n - 1]
    case Install(j, _, _) => i == j || CleanSince(states, events, n - 1, i)
    case Land(j, k) =>
      && CleanSince(states, events, n - 1, i)
      && (i == j && j in states[n - 1].sessions ==>
            Clean(states[n - 1].sessions[j].entries, states[n - 1].sessions[j].air.recorded, k))
    case _ => CleanSince(states, events, n - 1, i)
  }

  lemma EndKeepsAir(a: System, i: Sid, allocation: seq<seq<Id>>, fate: Fate, b: System)
    requires Enabled(a, End(i, allocation, fate)) && NextEnd(a, i, allocation, fate, b)
    ensures b.sessions == a.sessions[i := b.sessions[i]] && b.sessions[i].air == a.sessions[i].air
  {
    hide Kept, Finished, WithIds, Assigns;
  }

  lemma RecordKeepsExact(s: Session, caps: Caps, j: nat, bytes: nat)
    requires s.phase.Scoped? && j < |s.air.planned|
    ensures Recorded(s, caps, j, bytes).air.exact == s.air.exact
  {
    hide PlanOf, Publish, Clashes, Fits, Keep, SumBytes, MintIds;
  }

  lemma SameSessions(a: System, ev: Event, b: System, i: Sid)
    requires Next(a, ev, b) && i in b.sessions
    ensures i in a.sessions && ev.i in a.sessions
    ensures i != ev.i ==> b.sessions[i] == a.sessions[i]
    ensures i == ev.i && !ev.Install? && !ev.Land? ==> b.sessions[i].air.exact == a.sessions[i].air.exact
    ensures i == ev.i && ev.Install? ==> b.sessions[i].air.exact
    ensures i == ev.i && ev.Land? ==>
              (b.sessions[i].air.exact <==>
                 a.sessions[i].air.exact && Clean(a.sessions[i].entries, a.sessions[i].air.recorded, ev.k))
  {
    hide Mirrors, MayPlan, Assigns, Fresh, Clean, InTurn, PlanOf, Landed, RenameIds, Finished, WriteDb, Planning,
         Publish,
         NextEnd, Recorded;
    if ev.End? { EndKeepsAir(a, ev.i, ev.allocation, ev.fate, b); }
    if ev.Record? { RecordKeepsExact(a.sessions[ev.i], a.caps, ev.j, ev.bytes); }
  }

  predicate Loaded(events: seq<Event>, n: nat, i: Sid)
    requires n <= |events|
  {
    exists m :: 0 <= m < n && events[m].Install? && events[m].i == i
  }

  /** A session that has loaded: clean publications since, or not, is what `exact` says. */
  lemma {:induction false} ExactIsHistory(states: seq<System>, events: seq<Event>, n: nat, i: Sid)
    requires Behaviour(states, events) && n < |states| && i in states[n].sessions
    ensures CleanSince(states, events, n, i) ==> states[n].sessions[i].air.exact
    ensures Loaded(events, n, i) && states[n].sessions[i].air.exact ==> CleanSince(states, events, n, i)
    decreases n
  {
    if n > 0 {
      assert Next(states[n - 1], events[n - 1], states[n]) && |states| == |events| + 1;
      hide Next, Init, Clean, Behaviour;
      SameSessions(states[n - 1], events[n - 1], states[n], i);
      ExactIsHistory(states, events, n - 1, i);
    }
  }

  /** The event records a flight that clashes with what is due in its scope. */
  ghost predicate RecordsClash(a: System, ev: Event, i: Sid) {
    && ev.Record? && ev.i == i && i in a.sessions && a.sessions[i].phase.Scoped? && ev.j < |a.sessions[i].air.planned|
    && var s := a.sessions[i];
       var x := s.air.planned[ev.j].flight;
       && Passes(s, ev.j) && Clashes(s.air.truth, x.cmd)
       && Fits(s.phase.journal, s.phase.bytes, Buffered(x.op, MintIds(s.next, Mints(x.op)), ev.bytes), a.caps)
  }

  /** Since the scope began, one of its mutations clashed when it was recorded. */
  ghost predicate ClashedSince(states: seq<System>, events: seq<Event>, n: nat, i: Sid)
    requires |states| == |events| + 1 && n < |states|
    decreases n
  {
    && n > 0 && events[n - 1] != Begin(i)
    && (ClashedSince(states, events, n - 1, i) || RecordsClash(states[n - 1], events[n - 1], i))
  }

  lemma DoomedBy(a: System, ev: Event, b: System, i: Sid)
    requires Next(a, ev, b) && i in b.sessions && b.sessions[i].phase.Scoped?
    ensures i in a.sessions
    ensures ev == Begin(i) ==> !b.sessions[i].doomed
    ensures ev != Begin(i) ==>
              && a.sessions[i].phase.Scoped?
              && (b.sessions[i].doomed <==> a.sessions[i].doomed || RecordsClash(a, ev, i))
  {
    hide Mirrors, MayPlan, Assigns, Fresh, Clean, InTurn, PlanOf, Landed, RenameIds, Finished, WriteDb, Planning,
         Publish,
         NextEnd, Clashes, Fits, Keep, SumBytes, MintIds, TakenOff;
    if ev.End? { EndLeaves(a, ev.i, ev.allocation, ev.fate, b); }
  }

  lemma EndLeaves(a: System, i: Sid, allocation: seq<seq<Id>>, fate: Fate, b: System)
    requires Enabled(a, End(i, allocation, fate)) && NextEnd(a, i, allocation, fate, b)
    ensures b.sessions == a.sessions[i := b.sessions[i]] && i in b.sessions && !b.sessions[i].phase.Scoped?
  {
    hide Kept, Finished, WithIds, Assigns;
  }

  /** A scope is doomed exactly when a mutation it recorded clashed. */
  lemma {:induction false} DoomedIsHistory(states: seq<System>, events: seq<Event>, n: nat, i: Sid)
    requires Behaviour(states, events) && n < |states| && i in states[n].sessions && states[n].sessions[i].phase.Scoped?
    ensures states[n].sessions[i].doomed <==> ClashedSince(states, events, n, i)
    decreases n
  {
    if n > 0 {
      assert Next(states[n - 1], events[n - 1], states[n]);
      hide Next, Init, RecordsClash;
      DoomedBy(states[n - 1], events[n - 1], states[n], i);
      if events[n - 1] != Begin(i) { DoomedIsHistory(states, events, n - 1, i); }
    }
  }

  /** The event records a flight for which a cap leaves no room. */
  ghost predicate Overflows(a: System, ev: Event, i: Sid) {
    && ev.Record? && ev.i == i && i in a.sessions && a.sessions[i].phase.Scoped? && ev.j < |a.sessions[i].air.planned|
    && var s := a.sessions[i];
       var x := s.air.planned[ev.j].flight;
       && Passes(s, ev.j)
       && !Fits(s.phase.journal, s.phase.bytes, Buffered(x.op, MintIds(s.next, Mints(x.op)), ev.bytes), a.caps)
  }

  /** Since the scope began it was lost, or a mutation overflowed its journal. */
  ghost predicate LostSince(states: seq<System>, events: seq<Event>, n: nat, i: Sid)
    requires |states| == |events| + 1 && n < |states|
    decreases n
  {
    && n > 0 && events[n - 1] != Begin(i)
    && (LostSince(states, events, n - 1, i) || events[n - 1] == Lose(i) || Overflows(states[n - 1], events[n - 1], i))
  }

  lemma LostBy(a: System, ev: Event, b: System, i: Sid)
    requires Next(a, ev, b) && i in b.sessions && b.sessions[i].phase.Scoped?
    ensures i in a.sessions
    ensures ev == Begin(i) ==> !b.sessions[i].phase.lost
    ensures ev != Begin(i) ==>
              && a.sessions[i].phase.Scoped?
              && (b.sessions[i].phase.lost <==> a.sessions[i].phase.lost || ev == Lose(i) || Overflows(a, ev, i))
  {
    hide Mirrors, MayPlan, Assigns, Fresh, Clean, InTurn, PlanOf, Landed, RenameIds, Finished, WriteDb, Planning,
         Publish, NextEnd, Clashes, Fits, Keep, SumBytes, MintIds, TakenOff;
    if ev.End? { EndLeaves(a, ev.i, ev.allocation, ev.fate, b); }
  }

  /** The event records a flight: it still belongs to its scope, which is neither lost nor doomed,
      and the caps allow it. */
  ghost predicate Takes(a: System, ev: Event, i: Sid) {
    && ev.Record? && ev.i == i && i in a.sessions && a.sessions[i].phase.Scoped? && ev.j < |a.sessions[i].air.planned|
    && var s := a.sessions[i];
       var x := s.air.planned[ev.j].flight;
       && Passes(s, ev.j) && !s.doomed
       && Fits(s.phase.journal, s.phase.bytes, Buffered(x.op, MintIds(s.next, Mints(x.op)), ev.bytes), a.caps)
  }

  /** The log of a scope is what was recorded in it, in that order: empty when it begins, one command longer after each
      recording, and otherwise the same. */
  lemma LogIsHistory(a: System, ev: Event, b: System, i: Sid)
    requires Next(a, ev, b) && i in b.sessions && b.sessions[i].phase.Scoped?
    ensures i in a.sessions
    ensures ev == Begin(i) ==> b.sessions[i].log == []
    ensures ev != Begin(i) ==>
              var before, after := a.sessions[i].log, b.sessions[i].log;
              if Takes(a, ev, i) then
                && |after| == |before| + 1 && after[..|before|] == before
                && after[|before|].cmd == a.sessions[i].air.planned[ev.j].flight.cmd
              else after == before
  {
    hide Mirrors, MayPlan, Assigns, Fresh, Clean, InTurn, PlanOf, Landed, RenameIds, Finished, WriteDb, Planning,
         Publish, NextEnd, Clashes, Fits, Keep, SumBytes, MintIds, TakenOff;
    if ev.End? { EndLeaves(a, ev.i, ev.allocation, ev.fate, b); }
  }

  /** A scope is lost exactly when it was, or when a mutation of it did not fit; and a lost scope never commits. */
  lemma {:induction false} LostIsHistory(states: seq<System>, events: seq<Event>, n: nat, i: Sid)
    requires Behaviour(states, events) && n < |states| && i in states[n].sessions && states[n].sessions[i].phase.Scoped?
    ensures states[n].sessions[i].phase.lost <==> LostSince(states, events, n, i)
    decreases n
  {
    if n > 0 {
      assert Next(states[n - 1], events[n - 1], states[n]) && |states| == |events| + 1;
      hide Next, Init, Overflows, Behaviour;
      LostBy(states[n - 1], events[n - 1], states[n], i);
      if events[n - 1] != Begin(i) { LostIsHistory(states, events, n - 1, i); }
    }
  }

  /** Two operations that both found the same ancestor missing: recording both dooms the scope, whatever
      the first one's fate and whatever happened before. */
  lemma TwinsDoom(a: System, i: Sid, j: nat, k: nat, b: System, c: System, bytes: nat, more: nat)
    requires Inv(a) && i in a.sessions && a.sessions[i].phase.Scoped? && j < |a.sessions[i].air.planned|
    requires k < |a.sessions[i].air.planned| && j != k
    requires SameSegment(a.sessions[i].air.planned[j].flight.cmd, a.sessions[i].air.planned[k].flight.cmd)
    requires Passes(a.sessions[i], j) && Passes(a.sessions[i], k)
    requires Next(a, Record(i, j, bytes), b) && Next(b, Record(i, if k < j then k else k - 1, more), c)
    requires i in b.sessions && b.sessions[i].phase.Scoped? && !b.sessions[i].phase.lost
    requires i in c.sessions && c.sessions[i].phase.Scoped? && !c.sessions[i].phase.lost
    ensures Dead(c.sessions[i])
  {
    hide AirOk, ScopeOk, DeadOk, Above, HistoryOk, ChainOk, PlanOf, Fits, Keep, SumBytes, MintIds, Publish;
    var s := a.sessions[i];
    assert SessionOk(a, s);
    if !s.doomed {
      LiveStands(s.entries, s.air, Now(s), j);
      hide LiveOk;
      var x := s.air.planned[j].flight;
      FirstTwin(s.air.truth, x, MintIds(s.next, Mints(x.op)));
      var m := if k < j then k else k - 1;
      assert b.sessions[i].air.planned[m] == s.air.planned[k];
    }
  }

  lemma FirstTwin(truth: PathView, x: Flight, ids: seq<Id>)
    requires x.cmd.MkdirSegment? && PlanOf(truth, x.cmd) == Does(x.op) && |ids| == Mints(x.op)
    ensures x.cmd.path in Publish(truth, x.cmd, ids)
  {
    OneChange(truth, Put(x.cmd.path, Entry(ids[0], Meta(Directory, x.cmd.mode, 0, None, None))));
  }

  /** Outside a scope the database refuses the second one, and any other command that clashes. */
  lemma ClashIsRefused(a: System, i: Sid, j: nat, ids: seq<Id>, acknowledged: bool, b: System)
    requires Inv(a) && Next(a, Write(i, j, ids, acknowledged), b)
    requires i in a.sessions && j < |a.sessions[i].air.planned|
    requires Clashes(a.sessions[i].air.truth, a.sessions[i].air.planned[j].flight.cmd)
    ensures b == With(a, i, Refused(a.sessions[i], j))
  {
    hide Started, PlanOf, Publish, WriteDb, Valid, AirOk, Sound, Clashes, TakenOff, Fresh, ScopeOk, DeadOk, Above;
    var s := a.sessions[i];
    assert SessionOk(a, s) && HistoryOk(a);
    hide HistoryOk, ChainOk;
    var x := s.air.planned[j].flight;
    WriteChecks(a.db, s.epoch, x.op, ids);
    if Passes(s, j) && WriteDb(a.db, s.epoch, x.op, ids).Some? {
      WritesFromQuiet(a, s, j);
      LiveStands(s.entries, s.air, Now(s), j);
      WriteFresh(s.air.truth, a.db, s.epoch, x.cmd, ids);
    }
  }

  /** Outside a scope an operation commits exactly when it still belongs to its time, nobody committed in between,
      and it does not clash; and its session learns of that, and will publish it, exactly when the reply arrives. */
  lemma WritesExactly(a: System, i: Sid, j: nat, ids: seq<Id>, acknowledged: bool, b: System)
    requires Inv(a) && Next(a, Write(i, j, ids, acknowledged), b)
    requires i in a.sessions && j < |a.sessions[i].air.planned|
    ensures var s := a.sessions[i];
            b.db != a.db <==>
            Passes(s, j) && a.db.version == s.epoch && !Clashes(s.air.truth, s.air.planned[j].flight.cmd)
    ensures i in b.sessions
    ensures if b.db != a.db && acknowledged then
              && b.sessions[i].phase == Publishing(b.db.version) && |b.sessions[i].air.recorded| == 1
              && b.sessions[i].air.recorded[0].cmd == a.sessions[i].air.planned[j].flight.cmd
            else b.sessions[i] == Refused(a.sessions[i], j)
  {
    hide Started, PlanOf, Publish, WriteDb, Valid, AirOk, Sound, Clashes, TakenOff, Fresh, ScopeOk, DeadOk, Above;
    var s := a.sessions[i];
    assert SessionOk(a, s) && HistoryOk(a);
    hide HistoryOk, ChainOk;
    var x := s.air.planned[j].flight;
    WriteChecks(a.db, s.epoch, x.op, ids);
    if Passes(s, j) && a.db.version == s.epoch {
      WritesFromQuiet(a, s, j);
      LiveStands(s.entries, s.air, Now(s), j);
      WriteFresh(s.air.truth, a.db, s.epoch, x.cmd, ids);
      WriteStarted(s.air.truth, a.db, s.epoch, x.cmd, ids);
      TakenOffRecorded(s.air, j, ids);
    }
  }

  lemma TakenOffRecorded(air: Air, j: nat, ids: seq<Id>)
    requires j < |air.planned|
    ensures TakenOff(air, j, ids).recorded == air.recorded + [air.planned[j].flight.(ids := ids)]
  {
    hide PlanOf, Publish;
  }

  /** A load settles its session at the epoch of its snapshot, on that epoch's tree; one that fails settles it
      poisoned, with what it had. */
  lemma LoadsExactly(a: System, ev: Event, b: System)
    requires Next(a, ev, b) && (ev.Install? || ev.LoadFails?)
    ensures ev.i in a.sessions && ev.i in b.sessions && b == With(a, ev.i, b.sessions[ev.i])
    ensures var s := b.sessions[ev.i];
            if ev.Install? then
              && s.phase.Quiet? && !s.poisoned && s.epoch == ev.at && ev.at in a.past
                 && Mirrors(s.entries, a.past[ev.at])
              && s.air.recorded == [] && s.air.truth == s.entries
            else s == a.sessions[ev.i].(phase := Quiet, poisoned := true)
  {
    hide Mirrors, NoneLive;
  }

  /** Retiring a generation advances the epoch and nothing else; the session has a certificate exactly when the reply
      arrives, and then or later its view moves along exactly if it is still at the retired epoch and not
      poisoned. */
  lemma ClaimsExactly(a: System, i: Sid, acknowledged: bool, b: System)
    requires Next(a, Claim(i, acknowledged), b)
    ensures i in a.sessions && b.db == Db(a.db.tree, a.db.version + 1)
    ensures var claim := Commit(a.db.version, b.db.version);
            && b.commits == a.commits + [claim]
            && b.sessions == if acknowledged then a.sessions[i :=
               a.sessions[i].(claims := a.sessions[i].claims + [claim])]
                             else a.sessions
  {
    assert a.sessions[i := a.sessions[i]] == a.sessions;
  }

  lemma CertifiesExactly(a: System, i: Sid, c: nat, b: System)
    requires Next(a, Certify(i, c), b)
    ensures i in a.sessions && i in b.sessions && c < |a.sessions[i].claims|
    ensures var s, claim := a.sessions[i], a.sessions[i].claims[c];
            && b == With(a, i, s.(epoch := b.sessions[i].epoch, claims := b.sessions[i].claims))
            && |b.sessions[i].claims| == |s.claims| - 1
            && b.sessions[i].epoch == if !s.poisoned && s.epoch == claim.checked then claim.result else s.epoch
  {
  }

  /** In every interleaving of sessions and of the operations within each, a settled view that is not
      poisoned has exactly the paths, inodes and contents of the tree the database had at its epoch;
      and it has its modes too if every publication since the last load was clean. */
  lemma SettledViewIsItsEpoch(states: seq<System>, events: seq<Event>, n: nat, i: Sid)
    requires Behaviour(states, events) && n < |states| && i in states[n].sessions
    requires states[n].sessions[i].phase.Quiet? && !states[n].sessions[i].poisoned
    ensures var a, s := states[n], states[n].sessions[i];
            && s.epoch in a.past && s.epoch <= a.db.version
               && (s.epoch == a.db.version ==> a.past[s.epoch] == a.db.tree)
            && (exists tree :: Mirrors(tree, a.past[s.epoch]) && OnlyModes(tree, s.entries))
            && (CleanSince(states, events, n, i) ==> Mirrors(s.entries, a.past[s.epoch]))
            && forall p :: p in s.entries ==> s.entries[p].id > 0
  {
    RunInv(states, events, n);
    ExactIsHistory(states, events, n, i);
    var s := states[n].sessions[i];
    SettledAt(states[n], i);
    hide Behaviour, Inv, CleanSince, WellFormed;
    ViewIdsStored(s.air.truth, states[n].past[s.epoch]);
    assert Mirrors(s.air.truth, states[n].past[s.epoch]);
    forall p | p in s.entries ensures s.entries[p].id > 0 { assert p in s.air.truth.Keys; }
  }

  /** And only then: the first publication that is not clean shows at once. Whatever the operations
      under way, when it was the last one unpublished the cache is not what is due, and outside a scope
      not the tree of its epoch. The cache of a doomed scope will be reloaded or poisoned. */
  lemma UncleanShows(states: seq<System>, events: seq<Event>, n: nat, i: Sid, k: nat)
    requires Behaviour(states, events) && n < |events| && events[n] == Land(i, k) && CleanSince(states, events, n, i)
    requires i in states[n].sessions && !Clean(states[n].sessions[i].entries, states[n].sessions[i].air.recorded, k)
    requires i in states[n + 1].sessions && states[n + 1].sessions[i].air.recorded == []
    ensures var b, t := states[n + 1], states[n + 1].sessions[i];
            && (Dead(t) || t.entries != t.air.truth)
            && (t.phase.Quiet? && !t.poisoned ==> t.epoch in b.past && !Mirrors(t.entries, b.past[t.epoch]))
  {
    RunInv(states, events, n);
    RunInv(states, events, n + 1);
    ExactIsHistory(states, events, n, i);
    assert Next(states[n], events[n], states[n + 1]);
    hide Behaviour, CleanSince, Next;
    UncleanStep(states[n], i, k, states[n + 1]);
    var t := states[n + 1].sessions[i];
    if t.phase.Quiet? && !t.poisoned {
      SettledAt(states[n + 1], i);
      hide Inv, WellFormed;
      if Mirrors(t.entries, states[n + 1].past[t.epoch]) {
        MirrorUnique(t.entries, t.air.truth, states[n + 1].past[t.epoch]);
      }
    }
  }

  lemma UncleanStep(a: System, i: Sid, k: nat, b: System)
    requires Inv(a) && Next(a, Land(i, k), b) && a.sessions[i].air.exact
    requires !Clean(a.sessions[i].entries, a.sessions[i].air.recorded, k)
    requires i in b.sessions && b.sessions[i].air.recorded == []
    ensures Dead(b.sessions[i]) || b.sessions[i].entries != b.sessions[i].air.truth
  {
    hide Landed, Clean, InTurn, PlanOf;
    var s := a.sessions[i];
    assert SessionOk(a, s);
    hide Inv, SessionOk;
    if !Dead(s) { LandedWrong(a, s, k); }
  }

  lemma LandedWrong(a: System, s: Session, k: nat)
    requires SessionOk(a, s) && k < |s.air.recorded| && (s.phase.Scoped? || s.phase.Publishing?) && s.air.exact
             && !Dead(s)
    requires !Clean(s.entries, s.air.recorded, k) && Without(s.air.recorded, k) == []
    ensures Stands(s.entries, s.air.recorded[k]) && Given(s.air.recorded[k])
    ensures Landed(s.entries, s.air.recorded[k]) != s.air.truth
  {
    hide PhaseOk, StampsOk, Holds, Clean, Landed, Stands, AllLive, AllRecorded, HeldApart, Closed;
    var q := UncleanIsWrong(s.entries, s.air.recorded, k, s.air.truth);
  }

  /** The empty sandbox is such a start, and a session's first load settles it. */
  lemma EmptySandboxLoads()
    ensures var view: PathView := map[[] := Entry(1, ROOT_META)];
            var s := Session(0, map[], true, Quiet, -1, 0, Air([], [], map[], true), map[], [], false, []);
            var a := System(Db(EMPTY_TREE, 0), Caps(1000, 1000000), map[0 := s], map[0 := EMPTY_TREE], []);
            var b := With(a, 0, s.(entries := view, poisoned := false, air := Grounded(view, [])));
            Behaviour([a, b], [Install(0, 0, view)]) && b.sessions[0].phase.Quiet? && !b.sessions[0].poisoned
  {
    var view: PathView := map[[] := Entry(1, ROOT_META)];
    EmptyTreeInStep();
    hide WellFormed, Mirrors;
    assert Started(view, EMPTY_TREE);
    assert Sound(EMPTY_TREE);
  }

  /** No two transactions commit against the same epoch: whatever committed later had checked an
      epoch at least as new as the one the earlier one left. A retired epoch commits nothing. */
  lemma SupersededNeverCommits(states: seq<System>, events: seq<Event>, n: nat, c: nat, d: nat)
    requires Behaviour(states, events) && n < |states| && c < d < |states[n].commits|
    ensures states[n].commits[c].checked < states[n].commits[c].result <= states[n].commits[d].checked
  {
    RunInv(states, events, n);
    ChainOrdered(states[n], c, d);
  }

  lemma {:induction false} ChainOrdered(a: System, c: nat, d: nat)
    requires ChainOk(a) && c < d < |a.commits|
    ensures a.commits[c].checked < a.commits[c].result <= a.commits[d].checked
  {
    if c + 1 < d { ChainOrdered(a, c, d - 1); }
  }

  /** The session ends its scope in this step. */
  ghost predicate Ends(a: System, i: Sid, allocation: seq<seq<Id>>, fate: Fate, b: System) {
    && i in a.sessions && i in b.sessions && a.sessions[i].phase.Scoped? && |allocation| == |a.sessions[i].log|
    && Enabled(a, End(i, allocation, fate)) && NextEnd(a, i, allocation, fate, b)
  }

  lemma EndsFrom(a: System, i: Sid, allocation: seq<seq<Id>>, fate: Fate)
    requires Enabled(a, End(i, allocation, fate))
    ensures i in a.sessions && Assigns(a.db.tree, a.sessions[i].log, allocation)
  {
    hide Allocated;
  }

  /** The end of a scope leaves all its commands in the database, as if each had run at once on the
      very tree its view came from, or none of them. */
  lemma AllOrNothing(a: System, i: Sid, allocation: seq<seq<Id>>, fate: Fate, b: System)
    requires Inv(a) && Ends(a, i, allocation, fate, b)
    ensures b.db == a.db ||
            (var s := a.sessions[i];
             var g := Eager(s.base, Tx(a.db.tree, a.db.version, 0), WithIds(s.log, allocation));
             && a.db.version == s.epoch && Mirrors(s.base, a.db.tree) && b.db.version > a.db.version
             && g.Some? && b.db.tree == g.value.1.tree)
    ensures b.sessions[i].phase.Settling? ==> b.db != a.db
  {
    hide Inv, Eager, Mirrors, WithIds, NextEnd, Assigns, Enabled, Grows, HistoryOk, ChainOk, SessionOk;
    EndsFrom(a, i, allocation, fate);
    if Dead(a.sessions[i]) {
      DeadEndHistory(a, i, allocation, fate, b);
    } else {
      LiveAllOrNothing(a, i, allocation, fate, b);
    }
  }

  lemma LiveAllOrNothing(a: System, i: Sid, allocation: seq<seq<Id>>, fate: Fate, b: System)
    requires Inv(a) && Ends(a, i, allocation, fate, b) && !Dead(a.sessions[i])
    ensures b.db == a.db ||
            (var s := a.sessions[i];
             var g := Eager(s.base, Tx(a.db.tree, a.db.version, 0), WithIds(s.log, allocation));
             && a.db.version == s.epoch && Mirrors(s.base, a.db.tree) && b.db.version > a.db.version
             && g.Some? && b.db.tree == g.value.1.tree)
    ensures b.sessions[i].phase.Settling? ==> b.db != a.db
  {
    hide Inv, ScopeOk, Kept, Eager, RenameIds, Sound, Finished, Mirrors, Started, WithIds, NextEnd, Assigns, Enabled,
         Ended;
    EndsFrom(a, i, allocation, fate);
    var s := a.sessions[i];
    ScopeAt(a, i);
    EndOutcome(s, a.db, a.past[s.epoch], allocation, fate);
    NoExtra(a, i, allocation, fate, b);
    ScopeBase(s, a.past[s.epoch]);
  }

  /** The scope recorded something and was not lost, no command it recorded clashed with one recorded
      before, no other commit came in between, its lease lasted through the replay, and nothing rolled
      back. */
  predicate GoesThrough(a: System, s: Session, fate: Fate)
    requires s.phase.Scoped?
  {
    && s.log != [] && !s.phase.lost && !s.doomed && a.db.version == s.epoch
    && fate.opens && fate.leaseLostAt > |s.phase.journal| && fate.reply != RolledBack
  }

  /** Nothing clashed, so every command goes through. */
  lemma CalmFlush(s: Session, db: Db, allocation: seq<seq<Id>>)
    requires s.phase.Scoped? && ScopeOk(s, db.tree) && Assigns(db.tree, s.log, allocation) && NoneClashes(s.base, s.log)
    ensures Eager(s.base, Tx(db.tree, db.version, 0), WithIds(s.log, allocation)).Some?
  {
    hide Started, Legal, Provisional, Kept, ViewOf, Eager, NoneClashes, Allocated;
    SameLegal(s.base, s.log, allocation);
    SameClashes(s.base, s.log, allocation);
    RunsExactly(s.base, Tx(db.tree, db.version, 0), WithIds(s.log, allocation));
  }

  lemma SameClashes(v: PathView, log: seq<Step>, ids: seq<seq<Id>>)
    requires |ids| == |log| && NoneClashes(v, log)
    ensures NoneClashes(v, WithIds(log, ids))
  {
    hide Clashes;
    var w := WithIds(log, ids);
    forall i | 0 <= i < |w| ensures !Clashes(ViewOf(v, w[..i]), w[i].cmd) {
      assert w[..i] == WithIds(log[..i], ids[..i]);
      SameRun(v, log[..i], ids[..i]);
      assert !Clashes(ViewOf(v, log[..i]), log[i].cmd);
    }
  }

  lemma FinishExactly(s: Session, db: Db, t: Tree, allocation: seq<seq<Id>>, fate: Fate, a: System)
    requires s.phase.Scoped? && ScopeOk(s, t) && (db.version == s.epoch ==> t == db.tree)
             && Assigns(db.tree, s.log, allocation)
    requires a.db == db && NoneClashes(s.base, s.log) && !s.doomed
    ensures |s.phase.journal| == |Kept(s.base, WithIds(s.log, allocation)).1|
    ensures var r := Finished(db, s.epoch, s.phase.lost, s.phase.journal, Kept(s.base, WithIds(s.log, allocation)).1,
            fate);
            var g := Eager(s.base, Tx(db.tree, db.version, 0), WithIds(s.log, allocation));
            && (r.0 != db <==> GoesThrough(a, s, fate))
            && (r.1.Committed? <==> GoesThrough(a, s, fate) && fate.reply == Acknowledged)
            && (r.1.Committed? ==> g.Some? && RenameIds(s.air.truth, r.1.remap) == g.value.0)
  {
    hide Started, Legal, Provisional, Kept, ReplayAll, ViewOf, Eager, RenameIds, WithIds, NoneClashes;
    KeptNonEmpty(s.base, s.log);
    SameRun(s.base, s.log, allocation);
    if db.version == s.epoch {
      FlushStarted(s, db, allocation);
      CalmFlush(s, db, allocation);
    }
  }

  /** The database changes at the end of a scope exactly when the scope goes through, and the session
      learns of it exactly when the reply arrives. */
  lemma CommitsExactly(a: System, i: Sid, allocation: seq<seq<Id>>, fate: Fate, b: System)
    requires Inv(a) && Ends(a, i, allocation, fate, b)
    ensures b.db != a.db <==> GoesThrough(a, a.sessions[i], fate)
    ensures b.sessions[i].phase.Settling? <==> GoesThrough(a, a.sessions[i], fate) && fate.reply == Acknowledged
  {
    hide Inv, WithIds, NextEnd, Assigns, Enabled, Grows, HistoryOk, ChainOk, SessionOk;
    EndsFrom(a, i, allocation, fate);
    if Dead(a.sessions[i]) {
      DeadEndHistory(a, i, allocation, fate, b);
    } else {
      LiveCommitsExactly(a, i, allocation, fate, b);
    }
  }

  lemma LiveCommitsExactly(a: System, i: Sid, allocation: seq<seq<Id>>, fate: Fate, b: System)
    requires Inv(a) && Ends(a, i, allocation, fate, b) && !Dead(a.sessions[i])
    ensures b.db != a.db <==> GoesThrough(a, a.sessions[i], fate)
    ensures b.sessions[i].phase.Settling? <==>
              GoesThrough(a, a.sessions[i], fate) && fate.reply == Acknowledged
  {
    hide Inv, ScopeOk, Kept, Eager, RenameIds, Sound, Finished, Started, WithIds, NextEnd, Assigns, Enabled, Ended,
         GoesThrough;
    EndsFrom(a, i, allocation, fate);
    var s := a.sessions[i];
    ScopeAt(a, i);
    FinishExactly(s, a.db, a.past[s.epoch], allocation, fate, a);
    NoExtra(a, i, allocation, fate, b);
  }

  lemma EndSettles(a: System, i: Sid, allocation: seq<seq<Id>>, fate: Fate, b: System)
    requires Inv(a) && Ends(a, i, allocation, fate, b)
    requires GoesThrough(a, a.sessions[i], fate) && fate.reply == Acknowledged
    ensures var s, t := a.sessions[i], b.sessions[i];
            var g := Eager(s.base, Tx(a.db.tree, a.db.version, 0), WithIds(s.log, allocation));
            && t == s.(phase := t.phase) && t.phase.Settling? && t.phase.settlement.Committed?
            && t.phase.settlement.epoch == b.db.version && g.Some?
            && RenameIds(s.air.truth, t.phase.settlement.remap) == g.value.0 && Started(g.value.0, b.db.tree)
  {
    hide ScopeOk, Kept, Eager, RenameIds, Sound, Finished, WithIds, Started, Inv, NextEnd, Assigns, Enabled, Ended;
    EndsFrom(a, i, allocation, fate);
    var s := a.sessions[i];
    ScopeAt(a, i);
    EndOutcome(s, a.db, a.past[s.epoch], allocation, fate);
    NoExtra(a, i, allocation, fate, b);
    FinishExactly(s, a.db, a.past[s.epoch], allocation, fate, a);
  }

  lemma PublishesRenamed(b: System, i: Sid, c: System)
    requires i in b.sessions && b.sessions[i].phase.Settling? && b.sessions[i].phase.settlement.Committed?
    requires Inv(b) && Next(b, PublishScope(i), c)
    ensures i in c.sessions && c.db == b.db
    ensures var s := b.sessions[i];
            c.sessions[i] == Renamed(s, s.phase.settlement.remap).(epoch := s.phase.settlement.epoch, phase := Quiet)
  {
    hide Inv, RenameIds, Enabled, Grows;
    PublishedScopeStep(b, i, c);
  }

  /** After a scope that went through, the published view is the one the commands run at once would
      have left, the database's tree at the database's epoch: up to modes, and exactly if every
      publication was clean. */
  lemma PublishedIsEager(a: System, i: Sid, allocation: seq<seq<Id>>, fate: Fate, b: System, c: System)
    requires Inv(a) && Ends(a, i, allocation, fate, b)
    requires GoesThrough(a, a.sessions[i], fate) && fate.reply == Acknowledged
             && Next(b, PublishScope(i), c)
    ensures i in c.sessions
    ensures var s, t := a.sessions[i], c.sessions[i];
            var g := Eager(s.base, Tx(a.db.tree, a.db.version, 0), WithIds(s.log, allocation));
            && g.Some? && var eager := g.value.0;
            && t.phase.Quiet? && !t.poisoned && t.epoch == c.db.version && c.db == b.db && Mirrors(eager, c.db.tree)
            && OnlyModes(eager, t.entries) && (s.air.exact ==> t.entries == eager)
  {
    hide Eager, RenameIds, WithIds, WellFormed, Mirrors, NextEnd, NextPublishScope, HistoryOk, ChainOk;
    EndSettles(a, i, allocation, fate, b);
    EndStep(a, i, allocation, fate, b);
    PublishesRenamed(b, i, c);
    PublishedScopeStep(b, i, c);
    SettledAt(c, i);
  }

  lemma ScopeAt(a: System, i: Sid)
    requires Inv(a) && i in a.sessions && a.sessions[i].phase.Scoped? && !Dead(a.sessions[i])
    ensures var s := a.sessions[i];
            && s.epoch in a.past && ScopeOk(s, a.past[s.epoch]) && NoneClashes(s.base, s.log)
            && (a.db.version == s.epoch ==> a.past[s.epoch] == a.db.tree)
  {
    hide ScopeOk, AirOk, StampsOk, Above, Sound, NoneClashes;
    assert SessionOk(a, a.sessions[i]);
  }

  lemma ScopeBase(s: Session, t: Tree)
    requires s.phase.Scoped? && ScopeOk(s, t)
    ensures Mirrors(s.base, t)
  {
  }

  /** A scope that recorded something and did not commit waits for a reload; from there the session
      either holds a committed tree or is poisoned, and a poisoned view starts nothing. */
  lemma FailedScopeRecovers(a: System, ev: Event, b: System)
    requires Inv(a) && Next(a, ev, b) && ev.i in a.sessions
    ensures ev.End? && a.sessions[ev.i].log != [] ==>
              b.sessions[ev.i].phase.Recovering? || (b.sessions[ev.i].phase.Settling? && b.db != a.db)
    ensures ev.Abort? && a.sessions[ev.i].log != [] ==> b.sessions[ev.i].phase.Recovering? && b.db == a.db
    ensures a.sessions[ev.i].phase.Recovering? ==>
              || (b.sessions[ev.i].phase.Recovering? && b.db == a.db)
              || (b.sessions[ev.i].phase.Quiet? && b.sessions[ev.i].poisoned)
              || (b.sessions[ev.i].phase.Quiet? && ev.Install? && Mirrors(b.sessions[ev.i].entries, a.past[ev.at]))
    ensures a.sessions[ev.i].poisoned ==> ev.Install? || (b.sessions[ev.i].poisoned && !b.sessions[ev.i].phase.Scoped?)
  {
    hide Inv, Enabled, NextEnd, NextLocal, NextWrite, NextPublishScope, NextClaim, Mirrors;
    match ev
    case End(i, allocation, fate) =>
      ToEnds(a, i, allocation, fate, b);
      EndRecovers(a, i, allocation, fate, b);
    case Abort(i) => AbortRecovers(a, i, b);
    case _ => OtherRecovers(a, ev, b);
  }

  lemma ToEnds(a: System, i: Sid, allocation: seq<seq<Id>>, fate: Fate, b: System)
    requires Enabled(a, End(i, allocation, fate)) && NextEnd(a, i, allocation, fate, b)
    ensures Ends(a, i, allocation, fate, b)
  {
    hide Kept, Finished, WithIds, Allocated;
  }

  lemma EndRecovers(a: System, i: Sid, allocation: seq<seq<Id>>, fate: Fate, b: System)
    requires Inv(a) && Ends(a, i, allocation, fate, b)
    ensures i in a.sessions && i in b.sessions && a.sessions[i].phase.Scoped? && !a.sessions[i].poisoned
    ensures a.sessions[i].log != [] ==>
              b.sessions[i].phase.Recovering? || (b.sessions[i].phase.Settling? && b.db != a.db)
  {
    hide ScopeOk, DeadOk, Kept, Eager, RenameIds, Sound, Finished, Started, WithIds, NextEnd, AirOk, StampsOk, Idle,
         Above,
         HistoryOk, ChainOk;
    var s := a.sessions[i];
    assert SessionOk(a, s);
    if Dead(s) {
      DeadEndHistory(a, i, allocation, fate, b);
    } else {
      ScopeAt(a, i);
      EndOutcome(s, a.db, a.past[s.epoch], allocation, fate);
      NoExtra(a, i, allocation, fate, b);
    }
  }

  lemma AbortRecovers(a: System, i: Sid, b: System)
    requires Inv(a) && Enabled(a, Abort(i)) && NextLocal(a, Abort(i), b)
    ensures i in a.sessions && i in b.sessions && a.sessions[i].phase.Scoped? && !a.sessions[i].poisoned && b.db == a.db
    ensures a.sessions[i].log != [] ==> b.sessions[i].phase.Recovering?
  {
    hide Started, Sound, AirOk, StampsOk, Idle, Above, HistoryOk, ChainOk, Legal, Provisional, ViewOf, SumBytes,
         Clashes,
         Kept;
    var s := a.sessions[i];
    assert SessionOk(a, s);
    if !Dead(s) { KeptNonEmpty(s.base, s.log); }
  }

  lemma OtherRecovers(a: System, ev: Event, b: System)
    requires Inv(a) && Next(a, ev, b) && !ev.End? && !ev.Abort?
    ensures ev.i in a.sessions && ev.i in b.sessions
    ensures a.sessions[ev.i].phase.Recovering? ==>
              || (b.sessions[ev.i].phase.Recovering? && b.db == a.db)
              || (b.sessions[ev.i].phase.Quiet? && b.sessions[ev.i].poisoned)
              || (b.sessions[ev.i].phase.Quiet? && ev.Install? && Mirrors(b.sessions[ev.i].entries, a.past[ev.at]))
    ensures a.sessions[ev.i].poisoned ==>
              ev.Install? || (b.sessions[ev.i].poisoned && !b.sessions[ev.i].phase.Scoped?)
  {
    hide Started, Sound, AirOk, Above, HistoryOk, ChainOk, MayPlan, Fresh, Clean, InTurn, PlanOf, Landed, RenameIds,
         WriteDb,
         Planning, Publish, Recorded, ScopeOk, DeadOk, Mirrors, Clashes;
    assert SessionOk(a, a.sessions[ev.i]);
  }
}
