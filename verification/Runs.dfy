/** What every run of a mutation keeps, whatever it does to the tables: the fence stays open, the
    version only grows, and no inode id appears that the sequence did not hand out. */
module Runs {
  import opened Options
  import opened Tables
  import opened View
  import opened Commands
  import opened CommandLaw
  import opened Agreement
  import opened Subtrees

  /** The next fenced statement of the transaction passes. */
  predicate Live(tx: Tx, e: nat) {
    tx.version == e || (tx.version > e && tx.version == tx.local)
  }

  predicate Later(a: Tx, b: Tx) {
    a.version <= b.version
  }

  ghost predicate KeepsIds(a: Tree, b: Tree, ids: seq<Id>) {
    b.root == a.root && forall id :: id in b.inodes ==> id in a.inodes || id in ids
  }

  /** Two transactions over the same tables, the second `d` versions ahead. */
  predicate Twin(a: Tx, b: Tx, d: int) {
    a.tree == b.tree && b.version == a.version + d
  }

  ghost predicate Twins(a: Option<Tx>, b: Option<Tx>, d: int) {
    (a.Some? <==> b.Some?) && (a.Some? ==> Twin(a.value, b.value, d))
  }

  /** The shape of a result of a transaction that started at `tx`. */
  ghost predicate Follows(tx: Tx, r: Option<Tx>, ids: seq<Id>, e: nat) {
    r.Some? ==> Live(r.value, e) && Later(tx, r.value) && KeepsIds(tx.tree, r.value.tree, ids)
  }

  lemma {:induction false} RmStepsFollow(tx: Tx, steps: seq<RmStep>, e: nat)
    requires Live(tx, e)
    ensures Follows(tx, RunRmSteps(tx, steps, e), [], e)
  {
    if steps != [] { RmStepsFollow(tx, steps[..|steps| - 1], e); }
  }

  lemma {:induction false} RmStepsTwins(a: Tx, b: Tx, steps: seq<RmStep>, e: nat, e2: nat, d: int)
    requires Live(a, e) && Live(b, e2) && Twin(a, b, d)
    ensures Twins(RunRmSteps(a, steps, e), RunRmSteps(b, steps, e2), d)
  {
    if steps != [] {
      var init := steps[..|steps| - 1];
      RmStepsTwins(a, b, init, e, e2, d);
      RmStepsFollow(a, init, e);
      RmStepsFollow(b, init, e2);
    }
  }

  lemma {:induction false} CpStepsFollow(tx: Tx, steps: seq<CpStep>, ids: seq<Id>, e: nat)
    requires Live(tx, e) && |ids| == |steps|
    ensures RunCpSteps(tx, steps, ids, e).Some? ==>
              Follows(tx, Some(RunCpSteps(tx, steps, ids, e).value.0), ids, e)
              && (steps != [] ==> RunCpSteps(tx, steps, ids, e).value.0.version > tx.version)
  {
    if steps != [] { CpStepsFollow(tx, steps[..|steps| - 1], ids[..|steps| - 1], e); }
  }

  lemma {:induction false} CpStepsTwins(a: Tx, b: Tx, steps: seq<CpStep>, ids: seq<Id>, e: nat, e2: nat, d: int)
    requires Live(a, e) && Live(b, e2) && Twin(a, b, d) && |ids| == |steps|
    ensures var r, s := RunCpSteps(a, steps, ids, e), RunCpSteps(b, steps, ids, e2);
            (r.Some? <==> s.Some?) && (r.Some? ==> Twin(r.value.0, s.value.0, d) && r.value.1 == s.value.1)
  {
    if steps != [] {
      var n := |steps| - 1;
      CpStepsTwins(a, b, steps[..n], ids[..n], e, e2, d);
      CpStepsFollow(a, steps[..n], ids[..n], e);
      CpStepsFollow(b, steps[..n], ids[..n], e2);
    }
  }

  lemma RunFollows(op: Op, tx: Tx, ids: seq<Id>, e: nat)
    requires |ids| == Mints(op) && Live(tx, e)
    ensures Follows(tx, Run(op, tx, ids, e), ids, e)
  {
    match op
    case RmTreeOp(top, steps) =>
      if top.None? {
        RmStepsFollow(tx, steps, e);
      } else if DeleteDirent(tx, top.value, e).Some? {
        RmStepsFollow(DeleteDirent(tx, top.value, e).value.0, steps, e);
      }
    case CpTreeOp(plan) => CpStepsFollow(tx, plan, ids, e);
    case _ =>
  }

  /** The outcome of a run depends on the tables alone, not on which live fence it holds: a journal
      replayed under one expected epoch and eager writes under fresh ones do the same. */
  lemma RunTwins(op: Op, a: Tx, b: Tx, ids: seq<Id>, e: nat, e2: nat, d: int)
    requires |ids| == Mints(op) && Live(a, e) && Live(b, e2) && Twin(a, b, d)
    ensures Twins(Run(op, a, ids, e), Run(op, b, ids, e2), d)
  {
    hide Link, AddInode, DropComposite, Drop, Chmod, Unlink, Find, RunRmSteps, RunCpSteps;
    match op
    case RmTreeOp(top, steps) =>
      if top.None? {
        RmStepsTwins(a, b, steps, e, e2, d);
      } else if DeleteDirent(a, top.value, e).Some? {
        RmStepsTwins(DeleteDirent(a, top.value, e).value.0, DeleteDirent(b, top.value, e2).value.0, steps, e, e2, d);
      }
    case CpTreeOp(plan) => CpStepsTwins(a, b, plan, ids, e, e2, d);
    case _ =>
  }

  /** Every planned mutation that goes through advances the sandbox version. */
  lemma PlannedAdvances(v: PathView, tx: Tx, cmd: Cmd, ids: seq<Id>, e: nat)
    requires Ready(v, tx.tree, cmd, ids) && Live(tx, e)
    ensures var r := Run(PlanOf(v, cmd).op, tx, ids, e);
            r.Some? ==> r.value.version > tx.version && r.value.local == r.value.version
  {
    hide WellFormed, Mirrors;
    RunFollows(PlanOf(v, cmd).op, tx, ids, e);
    match PlanOf(v, cmd).op
    case RmTreeOp(_, _) =>
      IdStored(v, tx.tree, []);
      if cmd.path != [] { StoredParent(v, tx.tree, cmd.path); }
      RmAdvances(v, tx, cmd.path, cmd.order, e);
    case CpTreeOp(plan) =>
      assert cmd.src in cmd.order;
      CpStepsFollow(tx, plan, ids, e);
    case _ => SingleAdvances(PlanOf(v, cmd).op, tx, ids, e);
  }

  lemma SingleAdvances(op: Op, tx: Tx, ids: seq<Id>, e: nat)
    requires |ids| == Mints(op) && Live(tx, e) && !op.RmTreeOp? && !op.CpTreeOp?
    ensures Run(op, tx, ids, e).Some? ==> Run(op, tx, ids, e).value.version > tx.version
  {
    hide Link, AddInode, DropComposite, Drop, Chmod, Unlink, Find;
  }

  lemma RmAdvances(v: PathView, tx: Tx, p: Path, order: seq<Path>, e: nat)
    requires Live(tx, e) && EntryKey(v, p).Some? && forall i :: 0 <= i < |order| ==> order[i] in v
    ensures var r := Run(RmTreeOp(EntryKey(v, p), RmPlan(v, p, order)), tx, [], e);
            r.Some? ==> r.value.version > tx.version
  {
    var d := DeleteDirent(tx, EntryKey(v, p).value, e);
    if d.Some? { RmStepsFollow(d.value.0, RmPlan(v, p, order), e); }
  }

  // ── Paths stay normal ──────────────────────────────────────────────────────

  lemma {:induction false} ApplyNormal(v: PathView, cs: seq<Change>)
    requires NormalView(v) && forall i :: 0 <= i < |cs| && cs[i].Put? ==> Normal(cs[i].path)
    ensures NormalView(ApplyChanges(v, cs))
  {
    if cs != [] { ApplyNormal(v, cs[..|cs| - 1]); }
  }

  lemma PublishNormal(v: PathView, t: Tree, cmd: Cmd, ids: seq<Id>)
    requires Ready(v, t, cmd, ids)
    ensures NormalView(Publish(v, cmd, ids))
  {
    hide WellFormed, Mirrors, PlanOf;
    var cs := Changes(v, cmd, ids);
    forall i | 0 <= i < |cs| && cs[i].Put? ensures Normal(cs[i].path) {
      PutNormal(v, t, cmd, ids, i);
    }
    ApplyNormal(v, cs);
  }

  lemma PutNormal(v: PathView, t: Tree, cmd: Cmd, ids: seq<Id>, i: nat)
    requires Ready(v, t, cmd, ids) && i < |Changes(v, cmd, ids)| && Changes(v, cmd, ids)[i].Put?
    ensures Normal(Changes(v, cmd, ids)[i].path)
  {
    hide WellFormed, Mirrors, PlanRm, PlanMv;
    match cmd
    case Cp(src, dest, _, order, _) =>
      if v[src].meta.kind == Directory { DestNormal(src, dest, order[i]); }
    case Mv(src, dest, order, hidden) => MovePutNormal(v, src, dest, order, i - |order| - |hidden|);
    case _ =>
  }

  lemma MovePutNormal(v: PathView, src: Path, dest: Path, order: seq<Path>, i: int)
    requires NormalView(v) && Normal(dest) && Lists(v, src, order)
    ensures 0 <= i < |MovePuts(v, src, dest, order)| ==>
              MovePuts(v, src, dest, order)[i].Put? && Normal(MovePuts(v, src, dest, order)[i].path)
  {
    forall i | 0 <= i < |order| ensures order[i] in v && src <= order[i] { assert order[i] in order; }
    MovePutsShape(v, src, dest, order);
  }

  lemma DestNormal(src: Path, dest: Path, p: Path)
    requires src <= p && Normal(p) && Normal(dest)
    ensures Normal(DestOf(src, dest, p))
  {
    if src == [] && p != [] { assert p[0] != ""; }
  }
}
