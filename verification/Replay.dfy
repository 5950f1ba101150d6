/** Buffered execution refines eager execution. A scope plans every command against a view that holds
    provisional ids and keeps the mutations in a journal; the flush replays the journal in one
    transaction. Here: the replay does to the tables exactly what running each command at once would
    have done, and the scope's view, its ids renamed, is the resulting tree. */
module Replay {
  import opened Options
  import opened Tables
  import opened View
  import opened Commands
  import opened CommandLaw
  import opened Renaming
  import opened Runs

  /** A mutation kept for the flush. */
  datatype Buffered = Buffered(op: Op, minted: seq<Id>, bytes: nat)

  /** A command a script issued, the provisional ids it was given, and the ids the database hands out
      when its mutation runs. */
  datatype Step = Step(cmd: Cmd, minted: seq<Id>, stored: seq<Id>, bytes: nat)

  // ── The scope's side ───────────────────────────────────────────────────────

  /** The step records a mutation: the command passed its checks against `v`. */
  ghost predicate Records(v: PathView, s: Step) {
    && NormalCmd(s.cmd) && Valid(v, s.cmd) && !LinksRoot(s.cmd)
    && PlanOf(v, s.cmd).Does? && |s.minted| == Mints(PlanOf(v, s.cmd).op) == |s.stored|
  }

  function After(v: PathView, s: Step): PathView {
    if PlanOf(v, s.cmd).Does? && |s.minted| == Mints(PlanOf(v, s.cmd).op)
    then Publish(v, s.cmd, s.minted) else v
  }

  function ViewOf(v: PathView, log: seq<Step>): PathView {
    if log == [] then v else After(ViewOf(v, log[..|log| - 1]), log[|log| - 1])
  }

  ghost predicate Legal(v: PathView, log: seq<Step>) {
    forall i {:trigger log[i]} :: 0 <= i < |log| ==> Records(ViewOf(v, log[..i]), log[i])
  }

  function JournalOf(v: PathView, log: seq<Step>): (j: seq<Buffered>) {
    if log == [] then [] else
    var last := log[|log| - 1];
    var plan := PlanOf(ViewOf(v, log[..|log| - 1]), last.cmd);
    JournalOf(v, log[..|log| - 1])
    + if plan.Does? then [Buffered(plan.op, last.minted, last.bytes)] else []
  }

  function Minteds(log: seq<Step>): seq<Id> {
    if log == [] then [] else Minteds(log[..|log| - 1]) + log[|log| - 1].minted
  }

  function Reals(log: seq<Step>): seq<Id> {
    if log == [] then [] else Reals(log[..|log| - 1]) + log[|log| - 1].stored
  }

  function RealsOf(log: seq<Step>): (r: seq<seq<Id>>)
    ensures |r| == |log|
  {
    seq(|log|, i requires 0 <= i < |log| => log[i].stored)
  }

  function Elems(ids: seq<Id>): set<Id> {
    set id | id in ids
  }

  ghost predicate Distinct(ids: seq<Id>) {
    forall i, j :: 0 <= i < j < |ids| ==> ids[i] != ids[j]
  }

  /** Provisional ids are negative and never handed out twice; real ids are unused and never handed
      out twice. */
  ghost predicate Allocated(t: Tree, log: seq<Step>) {
    && Distinct(Minteds(log)) && Distinct(Reals(log))
    && (forall id :: id in Minteds(log) ==> id < 0)
    && (forall id :: id in Reals(log) ==> id > 0 && id !in t.inodes)
  }

  // ── The flush ──────────────────────────────────────────────────────────────

  /** Binds the ids the database produced to the provisional ones. */
  function Bind(f: Remap, minted: seq<Id>, stored: seq<Id>): Remap
    requires |minted| == |stored|
  {
    if minted == [] then f
    else Bind(f, minted[..|minted| - 1], stored[..|minted| - 1])[minted[|minted| - 1] := stored[|minted| - 1]]
  }

  function ReplayOne(tx: Tx, f: Remap, b: Buffered, stored: seq<Id>, e: nat): Option<(Tx, Remap)> {
    if |stored| != |b.minted| || |stored| != Mints(b.op) || !Bound(f, b.op) then None else
    match Run(RealOp(f, b.op), tx, stored, e)
    case None => None
    case Some(r) => Some((r, Bind(f, b.minted, stored)))
  }

  /** The loop of `#flushMutations`: every entry on one transaction, all under the scope's epoch. */
  function ReplayAll(tx: Tx, f: Remap, journal: seq<Buffered>, reals: seq<seq<Id>>, e: nat): Option<(Tx, Remap)>
    requires |journal| == |reals|
  {
    if journal == [] then Some((tx, f)) else
    var n := |journal| - 1;
    match ReplayAll(tx, f, journal[..n], reals[..n], e)
    case None => None
    case Some(r) => ReplayOne(r.0, r.1, journal[n], reals[n], e)
  }

  // ── Running each command at once ───────────────────────────────────────────

  /** A new write transaction: the version is the expected one, and it has advanced nothing yet. */
  function Begin(tx: Tx): Tx {
    tx.(local := 0)
  }

  /** Each command in a transaction of its own, its changes published with the real ids. */
  function EagerOne(v: PathView, db: Tx, cmd: Cmd, stored: seq<Id>): Option<(PathView, Tx)> {
    var plan := PlanOf(v, cmd);
    if !plan.Does? || |stored| != Mints(plan.op) then None else
    match Run(plan.op, Begin(db), stored, db.version)
    case None => None
    case Some(r) => Some((Publish(v, cmd, stored), r))
  }

  function Eager(v: PathView, db: Tx, log: seq<Step>): Option<(PathView, Tx)> {
    if log == [] then Some((v, db)) else
    var n := |log| - 1;
    match Eager(v, db, log[..n])
    case None => None
    case Some(r) => EagerOne(r.0, r.1, log[n].cmd, log[n].stored)
  }

  // ── One step ───────────────────────────────────────────────────────────────

  /** A scope's view, the bindings so far and the tables of the flush go together. */
  ghost predicate InSync(v: PathView, f: Remap, t: Tree) {
    && InStep(RenameIds(v, f), t) && NormalView(v) && InjectiveOn(f, IdsOf(v))
    && (forall p :: p in v ==> IdBound(f, v[p].id))
    && (forall id :: id in f ==> id < 0)
    && (forall id :: id in t.inodes ==> id > 0)
  }

  lemma {:induction false} BindValues(f: Remap, minted: seq<Id>, stored: seq<Id>)
    requires |minted| == |stored| && Distinct(minted)
    ensures Bind(f, minted, stored).Keys == f.Keys + Elems(minted)
    ensures forall id :: id in f && id !in minted ==> Bind(f, minted, stored)[id] == f[id]
    ensures forall i :: 0 <= i < |minted| ==> Bind(f, minted, stored)[minted[i]] == stored[i]
  {
    if minted != [] {
      var n := |minted| - 1;
      var init := minted[..n];
      assert Distinct(init) && minted[n] !in init;
      hide Distinct;
      BindValues(f, init, stored[..n]);
      assert minted == init + [minted[n]];
      var g := Bind(f, init, stored[..n]);
      assert Bind(f, minted, stored) == g[minted[n] := stored[n]];
      forall i | 0 <= i < |minted| ensures Bind(f, minted, stored)[minted[i]] == stored[i] {
        if i < n { assert minted[i] == init[i] && init[i] in init; }
      }
    }
  }

  ghost predicate NewIds(f: Remap, t: Tree, minted: seq<Id>, stored: seq<Id>) {
    && Distinct(minted) && (forall id :: id in minted ==> id < 0 && id !in f)
    && |minted| == |stored| && Fresh(t, stored)
  }

  lemma BindKeepsView(v: PathView, f: Remap, t: Tree, minted: seq<Id>, stored: seq<Id>)
    requires InSync(v, f, t) && NewIds(f, t, minted, stored)
    ensures RenameIds(v, Bind(f, minted, stored)) == RenameIds(v, f)
    ensures RealIds(Bind(f, minted, stored), minted) == stored
  {
    hide InStep;
    BindValues(f, minted, stored);
    var g := Bind(f, minted, stored);
    forall p | p in v ensures Real(g, v[p].id) == Real(f, v[p].id) {
      assert IdBound(f, v[p].id);
    }
    assert RenameIds(v, g).Keys == RenameIds(v, f).Keys;
  }

  lemma BindInjective(v: PathView, f: Remap, t: Tree, minted: seq<Id>, stored: seq<Id>)
    requires InSync(v, f, t) && NewIds(f, t, minted, stored)
    ensures InjectiveOn(Bind(f, minted, stored), IdsOf(v) + Minted(minted))
  {
    hide InStep;
    var g := Bind(f, minted, stored);
    forall a, b | a in IdsOf(v) + Minted(minted) && b in IdsOf(v) + Minted(minted) ensures Apart(g, a, b) {
      BoundTo(v, f, t, minted, stored, a);
      BoundTo(v, f, t, minted, stored, b);
      assert a in IdsOf(v) && b in IdsOf(v) ==> Apart(f, a, b);
    }
  }

  /** Where an id goes: into the tables if it was in the view, to a fresh id if it was just minted. */
  lemma BoundTo(v: PathView, f: Remap, t: Tree, minted: seq<Id>, stored: seq<Id>, a: Id)
    requires InSync(v, f, t) && NewIds(f, t, minted, stored) && a in IdsOf(v) + Minted(minted)
    ensures a in IdsOf(v) && a !in minted ==>
              Real(Bind(f, minted, stored), a) == Real(f, a) && Real(f, a) in t.inodes
    ensures a in minted ==> a !in IdsOf(v)
    ensures a in minted ==> exists i ::
            0 <= i < |minted| && minted[i] == a && Real(Bind(f, minted, stored), a) == stored[i]
                && stored[i] !in t.inodes
  {
    hide WellFormed;
    BindValues(f, minted, stored);
    if a in IdsOf(v) {
      var p :| p in v && v[p].id == a;
      assert IdBound(f, a) && p in RenameIds(v, f);
    }
  }

  lemma ValidRenames(v: PathView, f: Remap, cmd: Cmd)
    ensures Valid(RenameIds(v, f), cmd) <==> Valid(v, cmd)
    ensures NormalView(RenameIds(v, f)) <==> NormalView(v)
  {
    var w := RenameIds(v, f);
    forall p ensures p in w <==> p in v { RealEntry(v, f, p); }
    hide RenameIds;
    assert forall at, order :: Lists(w, at, order) <==> Lists(v, at, order);
  }

  /** Recording and replaying one command is running it: the plan resolves, the same statements run,
      and the published view stays the tables' tree. */
  lemma StepInSync(v: PathView, f: Remap, tx: Tx, s: Step, e: nat)
    requires InSync(v, f, tx.tree) && Records(v, s) && NewIds(f, tx.tree, s.minted, s.stored) && Live(tx, e)
    ensures Bound(f, PlanOf(v, s.cmd).op)
    ensures PlanOf(RenameIds(v, f), s.cmd) == Does(RealOp(f, PlanOf(v, s.cmd).op))
    ensures var r := Run(RealOp(f, PlanOf(v, s.cmd).op), tx, s.stored, e);
            r.Some? ==> InSync(After(v, s), Bind(f, s.minted, s.stored), r.value.tree)
                        && Publish(RenameIds(v, f), s.cmd, s.stored)
                           == RenameIds(After(v, s), Bind(f, s.minted, s.stored))
  {
    hide InStep, PlanOf, Run, Publish;
    var op, g := PlanOf(v, s.cmd).op, Bind(f, s.minted, s.stored);
    PlanBound(v, f, s.cmd);
    PlanRenames(v, f, s.cmd);
    BindKeepsView(v, f, tx.tree, s.minted, s.stored);
    BindInjective(v, f, tx.tree, s.minted, s.stored);
    PublishRenames(v, g, s.cmd, s.minted);
    ValidRenames(v, f, s.cmd);
    CommandAgrees(RenameIds(v, f), tx, s.cmd, s.stored, e);
    PublishNormal(RenameIds(v, f), tx.tree, s.cmd, s.stored);
    RunFollows(RealOp(f, op), tx, s.stored, e);
    StillBound(v, f, tx.tree, s);
    ValidRenames(After(v, s), g, s.cmd);
  }

  lemma StillBound(v: PathView, f: Remap, t: Tree, s: Step)
    requires InSync(v, f, t) && Records(v, s) && NewIds(f, t, s.minted, s.stored)
    requires InjectiveOn(Bind(f, s.minted, s.stored), IdsOf(v) + Minted(s.minted))
    requires Within(After(v, s), IdsOf(v) + Minted(s.minted))
    ensures InjectiveOn(Bind(f, s.minted, s.stored), IdsOf(After(v, s)))
    ensures forall p :: p in After(v, s) ==> IdBound(Bind(f, s.minted, s.stored), After(v, s)[p].id)
    ensures forall id :: id in Bind(f, s.minted, s.stored) ==> id < 0
  {
    hide InStep, PlanOf, Publish;
    var g, w := Bind(f, s.minted, s.stored), After(v, s);
    BindValues(f, s.minted, s.stored);
    forall p | p in w ensures IdBound(g, w[p].id) {
      assert w[p].id in IdsOf(v) + Minted(s.minted);
    }
    forall a, b | a in IdsOf(w) && b in IdsOf(w) ensures Apart(g, a, b) {
      assert a in IdsOf(v) + Minted(s.minted) && b in IdsOf(v) + Minted(s.minted);
    }
  }

  // ── Whole scopes ───────────────────────────────────────────────────────────

  ghost predicate Started(v: PathView, t: Tree) {
    InStep(v, t) && NormalView(v) && forall id :: id in t.inodes ==> id > 0
  }

  lemma StartedInSync(v: PathView, t: Tree)
    requires Started(v, t)
    ensures InSync(v, map[], t) && RenameIds(v, map[]) == v
  {
    hide InStep;
    assert RenameIds(v, map[]) == v;
    ViewIdsStored(v, t);
    forall a, b | a in IdsOf(v) && b in IdsOf(v) ensures Apart(map[], a, b) {}
  }

  lemma ViewIdsStored(v: PathView, t: Tree)
    requires InStep(v, t)
    ensures forall p :: p in v ==> v[p].id in t.inodes
  {
  }

  lemma LegalPrefix(v: PathView, log: seq<Step>, n: nat)
    requires Legal(v, log) && n <= |log|
    ensures Legal(v, log[..n])
  {
    forall i | 0 <= i < n ensures Records(ViewOf(v, log[..n][..i]), log[..n][i]) {
      assert log[..n][..i] == log[..i];
      assert log[..n][i] == log[i];
    }
  }

  lemma AllocatedPrefix(t: Tree, log: seq<Step>)
    requires log != [] && Allocated(t, log)
    ensures Allocated(t, log[..|log| - 1])
  {
    var init, s := log[..|log| - 1], log[|log| - 1];
    TailDistinct(Minteds(init), s.minted);
    TailDistinct(Reals(init), s.stored);
  }

  /** The last step's ids are new to everything that came before it. */
  lemma LastIdsNew(t0: Tree, log: seq<Step>, f: Remap, t: Tree)
    requires log != [] && Allocated(t0, log) && |log[|log| - 1].minted| == |log[|log| - 1].stored|
    requires f.Keys <= Elems(Minteds(log[..|log| - 1]))
    requires KeepsIds(t0, t, Reals(log[..|log| - 1]))
    ensures NewIds(f, t, log[|log| - 1].minted, log[|log| - 1].stored)
  {
    var init, s := log[..|log| - 1], log[|log| - 1];
    TailDistinct(Minteds(init), s.minted);
    TailDistinct(Reals(init), s.stored);
    hide Distinct;
    assert forall id :: id in Minteds(init) <==> id in Elems(Minteds(init));
    forall i | 0 <= i < |s.stored| ensures s.stored[i] > 0 && s.stored[i] !in t.inodes {
      assert s.stored[i] in s.stored && s.stored[i] in Reals(log);
    }
  }

  lemma TailDistinct(a: seq<Id>, b: seq<Id>)
    requires Distinct(a + b)
    ensures Distinct(a) && Distinct(b) && Elems(a + b) == Elems(a) + Elems(b)
    ensures forall id :: id in b ==> id !in a && id in a + b
    ensures forall id :: id in a ==> id in a + b
  {
    forall i, j | 0 <= i < j < |a| ensures a[i] != a[j] {
      assert (a + b)[i] == a[i] && (a + b)[j] == a[j];
    }
    forall i, j | 0 <= i < j < |b| ensures b[i] != b[j] {
      assert (a + b)[|a| + i] == b[i] && (a + b)[|a| + j] == b[j];
    }
    forall i, j | 0 <= i < |a| && 0 <= j < |b| ensures a[i] != b[j] {
      assert (a + b)[i] == a[i] && (a + b)[|a| + j] == b[j];
    }
  }

  /** What the replay of a scope's journal has in common with its commands run at once. */
  ghost predicate SameOutcome(v: PathView, log: seq<Step>, tx: Tx, r: Option<(Tx, Remap)>, g: Option<(PathView, Tx)>,
                              e: nat) {
    && (r.Some? <==> g.Some?)
    && (r.Some? ==>
          && Twin(r.value.0, g.value.1, 0) && Live(r.value.0, e)
          && InSync(ViewOf(v, log), r.value.1, r.value.0.tree)
          && g.value.0 == RenameIds(ViewOf(v, log), r.value.1)
          && KeepsIds(tx.tree, r.value.0.tree, Reals(log))
          && r.value.1.Keys == Elems(Minteds(log)))
  }

  /** For every legal scope and every allocation of ids: the flush goes through exactly when running
      each command at once would, leaves the same tables at the same version, and the scope's view
      with its ids renamed is the view the eager run ends with, which is the tree of those tables. */
  lemma {:induction false} ReplayIsEager(v: PathView, tx: Tx, log: seq<Step>, e: nat)
    requires Started(v, tx.tree) && tx.version == e && Legal(v, log) && Allocated(tx.tree, log)
    ensures |JournalOf(v, log)| == |log|
    ensures SameOutcome(v, log, tx, ReplayAll(tx, map[], JournalOf(v, log), RealsOf(log), e), Eager(v, tx, log), e)
  {
    hide InSync, Records, Started, InStep;
    if log == [] {
      StartedInSync(v, tx.tree);
    } else {
      var n := |log| - 1;
      LegalPrefix(v, log, n);
      AllocatedPrefix(tx.tree, log);
      ReplayIsEager(v, tx, log[..n], e);
      assert RealsOf(log)[..n] == RealsOf(log[..n]);
      assert Records(ViewOf(v, log[..n]), log[n]);
      LastStep(v, tx, log, e);
    }
  }

  lemma LastStep(v: PathView, tx: Tx, log: seq<Step>, e: nat)
    requires log != [] && Allocated(tx.tree, log) && Records(ViewOf(v, log[..|log| - 1]), log[|log| - 1])
    requires |JournalOf(v, log[..|log| - 1])| == |log| - 1
    requires SameOutcome(v, log[..|log| - 1], tx,
               ReplayAll(tx, map[], JournalOf(v, log[..|log| - 1]), RealsOf(log[..|log| - 1]), e),
                   Eager(v, tx, log[..|log| - 1]), e)
    ensures |JournalOf(v, log)| == |log|
    ensures SameOutcome(v, log, tx, ReplayAll(tx, map[], JournalOf(v, log), RealsOf(log), e), Eager(v, tx, log), e)
  {
    hide InSync, PlanOf, Records, Allocated, After, ReplayOne, EagerOne, Live;
    var n := |log| - 1;
    var init, s, u := log[..n], log[n], ViewOf(v, log[..n]);
    assert Plans(u, s) by { PlansIt(u, s); }
    var j := JournalOf(v, init) + [Buffered(PlanOf(u, s.cmd).op, s.minted, s.bytes)];
    assert JournalOf(v, log) == j && j[..n] == JournalOf(v, init) && RealsOf(log)[..n] == RealsOf(init);
    var r, g := ReplayAll(tx, map[], j[..n], RealsOf(init), e), Eager(v, tx, init);
    if r.Some? {
      LastIdsNew(tx.tree, log, r.value.1, r.value.0.tree);
      OneMore(u, r.value.1, r.value.0, g.value.1, s, e, 0);
      AllocatedElems(tx.tree, log);
    }
  }

  ghost predicate Plans(v: PathView, s: Step) {
    PlanOf(v, s.cmd).Does? && |s.minted| == |s.stored|
  }

  lemma PlansIt(v: PathView, s: Step)
    requires Records(v, s)
    ensures Plans(v, s)
  {
  }

  lemma AllocatedElems(t: Tree, log: seq<Step>)
    requires Allocated(t, log) && log != []
    ensures Elems(Minteds(log)) == Elems(Minteds(log[..|log| - 1])) + Elems(log[|log| - 1].minted)
  {
    TailDistinct(Minteds(log[..|log| - 1]), log[|log| - 1].minted);
  }

  /** Replaying one entry of the journal is running its command at once. */
  lemma OneMore(u: PathView, f: Remap, a: Tx, db: Tx, s: Step, e: nat, d: int)
    requires InSync(u, f, a.tree) && Records(u, s) && NewIds(f, a.tree, s.minted, s.stored)
    requires Live(a, e) && Twin(a, db, d)
    ensures var r := ReplayOne(a, f, Buffered(PlanOf(u, s.cmd).op, s.minted, s.bytes), s.stored, e);
            var g := EagerOne(RenameIds(u, f), db, s.cmd, s.stored);
            && (r.Some? <==> g.Some?)
            && (r.Some? ==>
                  && Twin(r.value.0, g.value.1, d) && Live(r.value.0, e)
                  && InSync(After(u, s), r.value.1, r.value.0.tree)
                  && g.value.0 == RenameIds(After(u, s), r.value.1)
                  && KeepsIds(a.tree, r.value.0.tree, s.stored)
                  && r.value.0.version > a.version
                  && r.value.1.Keys == f.Keys + Elems(s.minted))
  {
    hide InSync, Publish, PlanOf, Bound, RealOp, Run, Valid, After;
    StepAdvances(u, f, a, s, e);
    StepInSync(u, f, a, s, e);
    var op := RealOp(f, PlanOf(u, s.cmd).op);
    RunTwins(op, a, Begin(db), s.stored, e, db.version, d);
    RunFollows(op, a, s.stored, e);
    BindValues(f, s.minted, s.stored);
  }

  lemma StepAdvances(u: PathView, f: Remap, a: Tx, s: Step, e: nat)
    requires InSync(u, f, a.tree) && Records(u, s) && NewIds(f, a.tree, s.minted, s.stored) && Live(a, e)
    ensures var r := Run(RealOp(f, PlanOf(u, s.cmd).op), a, s.stored, e);
            r.Some? ==> r.value.version > a.version
  {
    hide InStep, PlanOf, Run;
    PlanRenames(u, f, s.cmd);
    ValidRenames(u, f, s.cmd);
    PlannedAdvances(RenameIds(u, f), a, s.cmd, s.stored, e);
  }

  /** Nothing provisional is left once the ids are renamed. */
  lemma NoProvisionalLeft(v: PathView, f: Remap, t: Tree)
    requires InSync(v, f, t)
    ensures forall p :: p in v ==> RenameIds(v, f)[p].id > 0
  {
    hide WellFormed;
    forall p | p in v ensures RenameIds(v, f)[p].id > 0 { assert p in RenameIds(v, f); }
  }
}
