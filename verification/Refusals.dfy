/** Which planned commands the tables refuse. A plan is checked against the cache, which is the tree of the
    tables; so nothing is left to go wrong but a clash: an entry created where there is one, or the root
    removed. */
module Refusals {
  import opened Options
  import opened Tables
  import opened View
  import opened Commands
  import opened Agreement
  import opened Subtrees
  import opened CommandLaw
  import opened Renaming
  import opened Runs
  import opened Replay
  import opened Closure

  lemma StepFresh(v: PathView, t0: Tree, src: Path, dest: Path, order: seq<Path>, modes: Modes, ids: seq<Id>, i: nat,
                  w: PathView, tx: Tx, created: map<Path, Id>, e: nat)
    requires CpSetup(v, t0, src, dest, order, ids) && i < |order|
    requires CpProgress(v, t0, CpPlan(v, src, dest, order, modes), ids, i, w, tx.tree, created)
    requires RunCpStep(tx, created, CpPlan(v, src, dest, order, modes)[i], ids[i], e).Some?
    ensures DestOf(src, dest, order[i]) !in v
  {
    hide WellFormed, Mirrors, Placed, OnlyNew, Lists;
    var s := CpPlan(v, src, dest, order, modes)[i];
    CopyParent(v, t0, src, dest, order, modes, ids, i, w);
    ParentTracked(v, w, created, ParentOf(s.dest));
    IdStored(w, tx.tree, ParentOf(s.dest));
    SlotFree(w, tx.tree, s.dest);
  }

  lemma {:induction false} CopyFresh(v: PathView, tx: Tx, src: Path, dest: Path, order: seq<Path>, modes: Modes,
                                     ids: seq<Id>, e: nat, n: nat, i: nat)
    requires CpSetup(v, tx.tree, src, dest, order, ids) && i < n <= |order|
    requires RunCpSteps(tx, CpPlan(v, src, dest, order, modes)[..n], ids[..n], e).Some?
    ensures DestOf(src, dest, order[i]) !in v
    decreases n
  {
    hide CpProgress, InStep, RunCpStep, Fresh, Lists, CpPlan, ShallowestFirst, RequireParent, DestOf;
    var plan := CpPlan(v, src, dest, order, modes);
    assert plan[..n][..n - 1] == plan[..n - 1] && ids[..n][..n - 1] == ids[..n - 1];
    if i < n - 1 {
      CopyFresh(v, tx, src, dest, order, modes, ids, e, n - 1, i);
    } else {
      CpSteps(v, src, dest, order, modes, ids, i, tx, e);
      var a := RunCpSteps(tx, plan[..i], ids[..i], e).value;
      StepFresh(v, tx.tree, src, dest, order, modes, ids, i, ApplyChanges(v, CopyPuts(plan, ids)[..i]), a.0, a.1, e);
    }
  }

  /** A command whose transaction goes through did not clash. */
  lemma SucceedsFresh(v: PathView, tx: Tx, cmd: Cmd, ids: seq<Id>, e: nat)
    requires Ready(v, tx.tree, cmd, ids) && !LinksRoot(cmd) && Run(PlanOf(v, cmd).op, tx, ids, e).Some?
    ensures !Clashes(v, cmd)
  {
    hide WellFormed, Mirrors, Lists;
    match cmd
    case MkdirSegment(p, mode, _) =>
      if p in v { SlotTaken(v, tx, p, Meta(Directory, mode, 0, None, None), ids[0], e); }
      assert ids == [ids[0]];
    case MakeSymlink(target, p) =>
      if p in v { SlotTaken(v, tx, p, SymlinkMeta(target), ids[0], e); }
      assert ids == [ids[0]];
    case Rm(p, _, _) =>
      IdStored(v, tx.tree, []);
      RootNameFree(v, tx.tree);
    case Cp(_, _, _, _, _) => CopySucceeds(v, tx, cmd, ids, e);
    case _ =>
  }

  lemma CopySucceeds(v: PathView, tx: Tx, cmd: Cmd, ids: seq<Id>, e: nat)
    requires Ready(v, tx.tree, cmd, ids) && cmd.Cp? && Run(PlanOf(v, cmd).op, tx, ids, e).Some?
    ensures !Clashes(v, cmd)
  {
    var src, dest, order := cmd.src, cmd.dest, cmd.order;
    if v[src].meta.kind == Directory {
      var plan := CpPlan(v, src, dest, order, cmd.modes);
      var n := |order|;
      forall i | 0 <= i < n ensures order[i] in v && src <= order[i] { assert order[i] in order; }
      assert plan[..n] == plan && ids[..n] == ids;
      assert CpSetup(v, tx.tree, src, dest, order, ids);
      hide InStep, Fresh, CpPlan;
      forall i | 0 <= i < n ensures DestOf(src, dest, order[i]) !in v {
        CopyFresh(v, tx, src, dest, order, cmd.modes, ids, e, n, i);
      }
    }
  }

  lemma ClashesRenamed(v: PathView, f: map<Id, Id>, cmd: Cmd)
    ensures Clashes(RenameIds(v, f), cmd) == Clashes(v, cmd)
  {
  }

  // ── Nothing else is refused ────────────────────────────────────────────────

  /** Statements on single entries. */
  lemma SimpleSucceeds(v: PathView, tx: Tx, cmd: Cmd, ids: seq<Id>, e: nat)
    requires Ready(v, tx.tree, cmd, ids) && !LinksRoot(cmd) && Live(tx, e) && !Clashes(v, cmd)
    requires cmd.Mkdir? || cmd.MkdirSegment? || cmd.MakeSymlink? || cmd.ChangeMode? || cmd.HardLink?
    ensures Run(PlanOf(v, cmd).op, tx, ids, e).Some?
  {
    hide WellFormed, Mirrors;
    var t := tx.tree;
    IdStored(v, t, []);
    match cmd
    case Mkdir(p, mode) => AgreeCreate(v, t, p, Meta(Directory, mode, 0, None, None), ids[0]);
    case MkdirSegment(p, mode, _) => AgreeCreate(v, t, p, Meta(Directory, mode, 0, None, None), ids[0]);
    case MakeSymlink(target, p) => AgreeCreate(v, t, p, SymlinkMeta(target), ids[0]);
    case ChangeMode(_, _) =>
    case HardLink(existing, p) => AgreeLink(v, t, existing, p);
  }

  lemma OverwriteSucceeds(v: PathView, tx: Tx, at: Path, meta: Meta, id: Id, e: nat)
    requires InStep(v, tx.tree) && at != [] && RequireParent(v, at).None? && id !in tx.tree.inodes && Live(tx, e)
    requires at in v ==> v[at].meta.kind != Directory
    ensures WriteFileComposite(tx, KeyOf(v, at), meta, id, e).Some? && Run(CpOp(KeyOf(v, at), meta), tx, [id], e).Some?
  {
    hide WellFormed, Mirrors, DropComposite, Drop;
    IdStored(v, tx.tree, ParentOf(at));
    if at in v { AgreeReplace(v, tx.tree, at, meta, id); } else { AgreeCreate(v, tx.tree, at, meta, id); }
  }

  lemma WriteSucceeds(v: PathView, tx: Tx, cmd: Cmd, ids: seq<Id>, e: nat)
    requires Ready(v, tx.tree, cmd, ids) && cmd.WriteFile? && Live(tx, e)
    ensures Run(PlanOf(v, cmd).op, tx, ids, e).Some?
  {
    hide WellFormed, Mirrors;
    IdStored(v, tx.tree, []);
    OverwriteSucceeds(v, tx, cmd.path, WriteMeta(v, cmd), ids[0], e);
  }

  // ── rm ─────────────────────────────────────────────────────────────────────

  /** Different paths are different entries. */
  lemma KeysDiffer(v: PathView, t: Tree, p: Path, q: Path)
    requires InStep(v, t) && p in v && q in v && p != [] && q != [] && KeyIn(v, p) == KeyIn(v, q)
    ensures p == q
  {
    hide WellFormed, Mirrors;
    StoredParent(v, t, p);
    StoredParent(v, t, q);
    SameIdSameDirectory(v, t, Base(t), ParentOf(p), ParentOf(q));
    assert p == ParentOf(p) + [NameOf(p)] && q == ParentOf(q) + [NameOf(q)];
  }

  lemma NotYetRemoved(v: PathView, t0: Tree, at: Path, order: seq<Path>, i: nat, t: Tree)
    requires RmSetup(v, t0, at, order) && i < |order| - 1 && EntriesLeft(v, t0, at, order, i, t) && order[i] in v
    requires forall j :: 0 <= j < |order| ==> order[j] in v
    ensures order[i] != at && order[i] != [] && ParentOf(order[i]) in v && KeyIn(v, order[i]) in t.dirents
  {
    hide WellFormed, Mirrors;
    var p := order[i];
    assert p in order;
    TopComesLast(v, at, order);
    ParentInView(v, t0, Base(t0), p);
    if Removed(v, at, order, i, KeyIn(v, p)) {
      if KeyIn(v, p) == KeyIn(v, at) {
        KeysDiffer(v, t0, p, at);
      } else {
        var j :| 0 <= j < i && j < |order| && order[j] != at && KeyIn(v, order[j]) == KeyIn(v, p);
        assert order[j] in order;
        KeysDiffer(v, t0, p, order[j]);
      }
    }
  }

  lemma {:induction false} RmStepsSucceed(v: PathView, t0: Tree, at: Path, order: seq<Path>, i: nat, tx: Tx, e: nat)
    requires RmSetup(v, t0, at, order) && i < |order| && Live(tx, e)
    requires forall j :: 0 <= j < |order| ==> order[j] in v
    requires RmProgress(v, t0, at, order, 0, tx.tree, Base(t0) + multiset{v[at].id})
    ensures RunRmSteps(tx, RmPlan(v, at, order)[..i], e).Some?
  {
    if i > 0 {
      var plan := RmPlan(v, at, order);
      assert plan[..i][..i - 1] == plan[..i - 1] && plan[..i][i - 1] == plan[i - 1];
      hide RmProgress, RmSetup, RmPlan;
      RmStepsSucceed(v, t0, at, order, i - 1, tx, e);
      RmSteps(v, t0, at, order, i - 1, tx, e);
      RmStepsFollow(tx, plan[..i - 1], e);
      RmStepSucceeds(v, t0, at, order, i - 1, RunRmSteps(tx, plan[..i - 1], e).value, e);
    }
  }

  lemma RmStepSucceeds(v: PathView, t0: Tree, at: Path, order: seq<Path>, i: nat, tx: Tx, e: nat)
    requires RmSetup(v, t0, at, order) && i < |order| - 1 && Live(tx, e)
    requires forall j :: 0 <= j < |order| ==> order[j] in v
    requires RmProgress(v, t0, at, order, i, tx.tree, Base(t0) + multiset{v[at].id})
    ensures RunRmStep(tx, RmPlan(v, at, order)[i], e).Some?
  {
    NotYetRemoved(v, t0, at, order, i, tx.tree);
    RmOne(v, t0, at, order, i, tx.tree, Base(t0) + multiset{v[at].id});
    EntryKept(v, t0, at, order, i, tx.tree, KeyOf(v, order[i]));
    ParentInView(v, t0, Base(t0), order[i]);
    hide RmProgress, RmSetup, Drop;
  }

  lemma RmTreeSucceeds(v: PathView, tx: Tx, at: Path, order: seq<Path>, e: nat)
    requires RmSetup(v, tx.tree, at, order) && (forall j :: 0 <= j < |order| ==> order[j] in v) && Live(tx, e)
    requires EntryKey(v, at).Some?
    ensures Run(RmTreeOp(EntryKey(v, at), RmPlan(v, at, order)), tx, [], e).Some?
  {
    hide WellFormed, Mirrors, EntriesLeft, DropComposite, Drop;
    var plan, n, pend := RmPlan(v, at, order), |order| - 1, Base(tx.tree) + multiset{v[at].id};
    RmTopGone(v, tx.tree, at, order);
    TopComesLast(v, at, order);
    var tx1 := DeleteDirent(tx, KeyOf(v, at), e).value.0;
    assert plan[..|plan| - 1] == plan[..n];
    RmStepsSucceed(v, tx.tree, at, order, n, tx1, e);
    RmSteps(v, tx.tree, at, order, n, tx1, e);
    var a := RunRmSteps(tx1, plan[..n], e).value;
    HandledLeavesChildless(v, tx.tree, at, order, n, a.tree);
    MirrorDrop(Prune(v, at), a.tree, pend, v[at].id);
  }

  lemma RmSucceeds(v: PathView, tx: Tx, cmd: Cmd, ids: seq<Id>, e: nat)
    requires Ready(v, tx.tree, cmd, ids) && cmd.Rm? && Live(tx, e) && !Clashes(v, cmd)
    ensures Run(PlanOf(v, cmd).op, tx, ids, e).Some?
  {
    hide WellFormed, Mirrors, DropComposite;
    if cmd.recursive && v[cmd.path].meta.kind == Directory {
      StoredParent(v, tx.tree, cmd.path);
      assert ids == [];
      RmTreeSucceeds(v, tx, cmd.path, cmd.order, e);
    } else {
      AgreeRm(v, tx.tree, cmd.path);
    }
  }

  // ── mv ─────────────────────────────────────────────────────────────────────

  lemma MvSucceeds(v: PathView, tx: Tx, src: Path, dest: Path, e: nat)
    requires InStep(v, tx.tree) && PlanMv(v, src, dest).Does? && Live(tx, e)
    ensures MvComposite(tx, KeyOf(v, src), KeyOf(v, dest), e).Some?
  {
    hide WellFormed, Mirrors, DropComposite;
    var t := tx.tree;
    SourceNotAbove(v, t, src, dest);
    StoredParent(v, t, src);
    IdStored(v, t, ParentOf(dest));
    if dest in v {
      AgreeRm(v, t, dest);
      assert ParentOf(src) != dest || HasChild(v, dest);
      var w, t1 := v - {dest}, DropComposite(Unlink(t, KeyOf(v, dest)), v[dest].id);
      ParentInView(w, t1, Base(t1), src);
      IdStored(w, t1, ParentOf(dest));
    } else {
      FreePath(v, t, dest);
      ParentInView(v, t, Base(t), src);
    }
  }

  // ── cp -r ──────────────────────────────────────────────────────────────────

  /** The copied paths so far are those the replay knows the new inodes of. */
  lemma {:induction false} CopiesKnown(tx: Tx, plan: seq<CpStep>, ids: seq<Id>, e: nat)
    requires |ids| == |plan| && RunCpSteps(tx, plan, ids, e).Some?
    ensures forall q :: q in RunCpSteps(tx, plan, ids, e).value.1 <==> exists j :: 0 <= j < |plan| && plan[j].dest == q
    decreases |plan|
  {
    if plan != [] {
      var n := |plan| - 1;
      CopiesKnown(tx, plan[..n], ids[..n], e);
      var a := RunCpSteps(tx, plan[..n], ids[..n], e).value.1;
      var b := RunCpSteps(tx, plan, ids, e).value.1;
      assert b.Keys == a.Keys + {plan[n].dest};
      forall q ensures q in b <==> exists j :: 0 <= j < |plan| && plan[j].dest == q {
        if q in a {
          var j :| 0 <= j < n && plan[..n][j].dest == q;
          assert plan[j].dest == q;
        }
        if j :| 0 <= j < |plan| && plan[j].dest == q { assert j == n || plan[..n][j].dest == q; }
      }
    }
  }

  /** No clash, so the place of each copy is free when its turn comes. */
  lemma CopyFree(v: PathView, src: Path, dest: Path, order: seq<Path>, modes: Modes, ids: seq<Id>, i: nat)
    requires i < |order| == |ids| && dest != [] && Lists(v, src, order) && NormalView(v)
    requires forall j :: 0 <= j < |order| ==> order[j] in v && src <= order[j] && DestOf(src, dest, order[j]) !in v
    ensures DestOf(src, dest, order[i]) !in ApplyChanges(v, CopyPuts(CpPlan(v, src, dest, order, modes), ids)[..i])
  {
    var cs, q := CopyPuts(CpPlan(v, src, dest, order, modes), ids)[..i], DestOf(src, dest, order[i]);
    PutsAre(v, cs, q);
    if j :| 0 <= j < |cs| && cs[j].path == q {
      DestInjective(src, dest, order[j], order[i]);
    }
  }

  lemma CpStepSucceeds(v: PathView, t0: Tree, src: Path, dest: Path, order: seq<Path>, modes: Modes, ids: seq<Id>,
                       i: nat,
                       w: PathView, tx: Tx, created: map<Path, Id>, e: nat)
    requires CpSetup(v, t0, src, dest, order, ids) && i < |order| && Live(tx, e)
    requires CpProgress(v, t0, CpPlan(v, src, dest, order, modes), ids, i, w, tx.tree, created)
    requires forall q :: q in w ==> q in v || q in created
    requires DestOf(src, dest, order[i]) !in w
    ensures RunCpStep(tx, created, CpPlan(v, src, dest, order, modes)[i], ids[i], e).Some?
  {
    hide WellFormed, Mirrors, Keeps, Placed, OnlyNew, Lists;
    var s := CpPlan(v, src, dest, order, modes)[i];
    CopyParent(v, t0, src, dest, order, modes, ids, i, w);
    ParentTracked(v, w, created, ParentOf(s.dest));
    IdStored(w, tx.tree, ParentOf(s.dest));
    FreePath(w, tx.tree, s.dest);
  }

  lemma OnlyCopiesAdded(v: PathView, tx: Tx, plan: seq<CpStep>, ids: seq<Id>, n: nat, e: nat)
    requires n <= |plan| == |ids| && RunCpSteps(tx, plan[..n], ids[..n], e).Some?
    ensures forall q :: q in ApplyChanges(v, CopyPuts(plan, ids)[..n]) ==>
                          q in v || q in RunCpSteps(tx, plan[..n], ids[..n], e).value.1
  {
    var puts := CopyPuts(plan, ids)[..n];
    CopiesKnown(tx, plan[..n], ids[..n], e);
    hide RunCpSteps;
    forall q | q in ApplyChanges(v, puts) && q !in v ensures q in RunCpSteps(tx, plan[..n], ids[..n], e).value.1 {
      PutsAre(v, puts, q);
      var j :| 0 <= j < n && puts[j].path == q;
      assert plan[..n][j].dest == q;
    }
  }

  lemma OneStepMore(tx: Tx, plan: seq<CpStep>, ids: seq<Id>, n: nat, e: nat)
    requires n < |plan| == |ids| && RunCpSteps(tx, plan[..n], ids[..n], e).Some?
    ensures var a := RunCpSteps(tx, plan[..n], ids[..n], e).value;
            RunCpSteps(tx, plan[..n + 1], ids[..n + 1], e) == RunCpStep(a.0, a.1, plan[n], ids[n], e)
  {
    assert plan[..n + 1][..n] == plan[..n] && ids[..n + 1][..n] == ids[..n];
    hide RunCpStep;
  }

  lemma NextStepSucceeds(v: PathView, src: Path, dest: Path, order: seq<Path>, modes: Modes, ids: seq<Id>, n: nat,
                         tx: Tx, e: nat)
    requires CpSetup(v, tx.tree, src, dest, order, ids) && n < |order| && Live(tx, e)
    requires RunCpSteps(tx, CpPlan(v, src, dest, order, modes)[..n], ids[..n], e).Some?
    requires DestOf(src, dest, order[n]) !in
             ApplyChanges(v, CopyPuts(CpPlan(v, src, dest, order, modes), ids)[..n])
    ensures RunCpSteps(tx, CpPlan(v, src, dest, order, modes)[..n + 1], ids[..n + 1], e).Some?
  {
    var plan := CpPlan(v, src, dest, order, modes);
    hide RunCpSteps, RunCpStep, CpProgress, ApplyChanges, CopyPuts, Live, InStep, Fresh, ShallowestFirst, RequireParent;
    CpSteps(v, src, dest, order, modes, ids, n, tx, e);
    CpStepsFollow(tx, plan[..n], ids[..n], e);
    OnlyCopiesAdded(v, tx, plan, ids, n, e);
    OneStepMore(tx, plan, ids, n, e);
    var a := RunCpSteps(tx, plan[..n], ids[..n], e).value;
    CpStepSucceeds(v, tx.tree, src, dest, order, modes, ids, n, ApplyChanges(v, CopyPuts(plan, ids)[..n]), a.0, a.1, e);
  }

  lemma {:induction false} CpStepsSucceed(v: PathView, src: Path, dest: Path, order: seq<Path>, modes: Modes,
                                          ids: seq<Id>, i: nat, tx: Tx, e: nat)
    requires CpSetup(v, tx.tree, src, dest, order, ids) && i <= |order| && NormalView(v) && Live(tx, e)
    requires forall j :: 0 <= j < |order| ==> DestOf(src, dest, order[j]) !in v
    ensures RunCpSteps(tx, CpPlan(v, src, dest, order, modes)[..i], ids[..i], e).Some?
    decreases i
  {
    if i > 0 {
      CopyFree(v, src, dest, order, modes, ids, i - 1);
      hide InStep, RunCpSteps, Fresh, ShallowestFirst, RequireParent, DestOf, NormalView, ApplyChanges, CopyPuts, Live;
      CpStepsSucceed(v, src, dest, order, modes, ids, i - 1, tx, e);
      NextStepSucceeds(v, src, dest, order, modes, ids, i - 1, tx, e);
    }
  }

  lemma CpSucceeds(v: PathView, tx: Tx, cmd: Cmd, ids: seq<Id>, e: nat)
    requires Ready(v, tx.tree, cmd, ids) && cmd.Cp? && Live(tx, e) && !Clashes(v, cmd)
    ensures Run(PlanOf(v, cmd).op, tx, ids, e).Some?
  {
    var src, dest, order := cmd.src, cmd.dest, cmd.order;
    if v[src].meta.kind == Directory {
      var plan, n := CpPlan(v, src, dest, order, cmd.modes), |order|;
      forall i | 0 <= i < n ensures order[i] in v && src <= order[i] { assert order[i] in order; }
      assert plan[..n] == plan && ids[..n] == ids;
      assert CpSetup(v, tx.tree, src, dest, order, ids);
      hide InStep, Fresh, CpPlan, Lists, NormalView;
      CpStepsSucceed(v, src, dest, order, cmd.modes, ids, n, tx, e);
    } else {
      assert ids == [ids[0]];
      OverwriteSucceeds(v, tx, dest, SeenMeta(v[src].meta, cmd.modes, src), ids[0], e);
    }
  }

  // ── The fence ──────────────────────────────────────────────────────────────

  lemma {:induction false} StaleCopies(tx: Tx, plan: seq<CpStep>, ids: seq<Id>, e: nat)
    requires |ids| == |plan| > 0 && !Live(tx, e)
    ensures RunCpSteps(tx, plan, ids, e).None?
    decreases |plan|
  {
    var n := |plan| - 1;
    if n > 0 { StaleCopies(tx, plan[..n], ids[..n], e); }
  }

  /** On a stale epoch nothing runs. */
  lemma StaleNeverRuns(v: PathView, tx: Tx, cmd: Cmd, ids: seq<Id>, e: nat)
    requires Ready(v, tx.tree, cmd, ids) && !Live(tx, e)
    ensures Run(PlanOf(v, cmd).op, tx, ids, e).None?
  {
    hide WellFormed, Mirrors;
    IdStored(v, tx.tree, []);
    match PlanOf(v, cmd).op
    case RmTreeOp(_, _) => if cmd.path != [] { StoredParent(v, tx.tree, cmd.path); }
    case CpTreeOp(plan) =>
      assert cmd.src in cmd.order;
      StaleCopies(tx, plan, ids, e);
    case _ =>
  }

  /** Whatever the command: once it has passed its checks, its transaction goes through if and only if the epoch it
      expects is the current one, or this very transaction has moved on from it, and the command does not clash. */
  lemma SucceedsExactly(v: PathView, tx: Tx, cmd: Cmd, ids: seq<Id>, e: nat)
    requires Ready(v, tx.tree, cmd, ids) && !LinksRoot(cmd)
    ensures Run(PlanOf(v, cmd).op, tx, ids, e).Some? <==>
            (tx.version == e || (tx.version > e && tx.version == tx.local)) && !Clashes(v, cmd)
  {
    hide InStep, Fresh, Valid, Clashes;
    if !Live(tx, e) {
      StaleNeverRuns(v, tx, cmd, ids, e);
    } else if !Clashes(v, cmd) {
      match cmd
      case WriteFile(_, _, _, _) => WriteSucceeds(v, tx, cmd, ids, e);
      case Rm(_, _, _) => RmSucceeds(v, tx, cmd, ids, e);
      case Cp(_, _, _, _, _) => CpSucceeds(v, tx, cmd, ids, e);
      case Mv(src, dest, _, _) => MvSucceeds(v, tx, src, dest, e);
      case _ => SimpleSucceeds(v, tx, cmd, ids, e);
    } else if Run(PlanOf(v, cmd).op, tx, ids, e).Some? {
      SucceedsFresh(v, tx, cmd, ids, e);
    }
  }

  /** One fenced statement moves the epoch by one, in the sandbox row and in the transaction's own memory of it. */
  lemma AdvancesByOne(op: Op, tx: Tx, ids: seq<Id>, e: nat)
    requires |ids| == Mints(op) && Run(op, tx, ids, e).Some? && !op.RmTreeOp? && !op.CpTreeOp? && !op.MvOp?
    ensures var r := Run(op, tx, ids, e).value; r.version == tx.version + 1 && r.local == r.version
  {
    hide Link, AddInode, DropComposite, Drop, Chmod, Unlink, Find;
  }

  // ── Whole scopes ───────────────────────────────────────────────────────────

  /** No command of the log clashed with what was recorded before it. */
  ghost predicate NoneClashes(v: PathView, log: seq<Step>) {
    forall i {:trigger log[i]} :: 0 <= i < |log| ==> !Clashes(ViewOf(v, log[..i]), log[i].cmd)
  }

  lemma NoneClashesLast(v: PathView, log: seq<Step>)
    requires log != []
    ensures var n := |log| - 1;
            NoneClashes(v, log) <==> NoneClashes(v, log[..n]) && !Clashes(ViewOf(v, log[..n]), log[n].cmd)
  {
    hide Clashes, ViewOf;
    var n := |log| - 1;
    assert forall i :: 0 <= i < n ==> log[..n][i] == log[i] && log[..n][..i] == log[..i];
    if NoneClashes(v, log) {
      forall i | 0 <= i < n ensures !Clashes(ViewOf(v, log[..n][..i]), log[..n][i].cmd) {
        assert log[..n][i] == log[i];
      }
    }
  }

  /** One command of a scope, run at once on the tables that its predecessors left. */
  lemma StepRunsExactly(v: PathView, f: Remap, t: Tree, db: Tx, last: Step)
    requires InSync(v, f, t) && db.tree == t && Records(v, last) && NewIds(f, t, last.minted, last.stored)
    ensures EagerOne(RenameIds(v, f), db, last.cmd, last.stored).Some? <==> !Clashes(v, last.cmd)
  {
    var w := RenameIds(v, f);
    ValidRenames(v, f, last.cmd);
    ClashesRenamed(v, f, last.cmd);
    PlanBound(v, f, last.cmd);
    PlanRenames(v, f, last.cmd);
    hide Clashes, Run, PlanOf, InStep, Valid, NormalView, Fresh;
    SucceedsExactly(w, Begin(db), last.cmd, last.stored, db.version);
  }

  /** A scope's commands, each run at once on the tree its view came from, all go through if and only if none of
      them clashes. */
  lemma {:induction false} RunsExactly(v: PathView, tx: Tx, log: seq<Step>)
    requires Started(v, tx.tree) && Legal(v, log) && Allocated(tx.tree, log)
    ensures Eager(v, tx, log).Some? <==> NoneClashes(v, log)
    decreases |log|
  {
    hide InSync, Records, Started, Clashes;
    if log != [] {
      var n := |log| - 1;
      var init := log[..n];
      LegalPrefix(v, log, n);
      AllocatedPrefix(tx.tree, log);
      RunsExactly(v, tx, init);
      NoneClashesLast(v, log);
      ReplayIsEager(v, tx, init, tx.version);
      assert Records(ViewOf(v, init), log[n]);
      hide NoneClashes, Legal;
      var r := ReplayAll(tx, map[], JournalOf(v, init), RealsOf(init), tx.version);
      if r.Some? {
        hide ReplayAll, EagerOne;
        assert |log[n].minted| == |log[n].stored| by { SameLength(ViewOf(v, init), log[n]); }
        LastIdsNew(tx.tree, log, r.value.1, r.value.0.tree);
        StepRunsExactly(ViewOf(v, init), r.value.1, r.value.0.tree, Eager(v, tx, init).value.1, log[n]);
      }
    }
  }

  lemma SameLength(v: PathView, s: Step)
    requires Records(v, s)
    ensures |s.minted| == |s.stored|
  {
  }

  // ── Commands that clash by themselves ──────────────────────────────────────

  /** A symbolic link over any entry passes its checks. */
  lemma LinkOverPasses(v: PathView, target: string, p: Path)
    requires Closed(v) && p in v && p != []
    ensures PlanOf(v, MakeSymlink(target, p)).Does? && Clashes(v, MakeSymlink(target, p))
  {
    assert Hangs(v, p);
  }

  /** So does a recursive copy of a directory over any entry but the root. */
  lemma CopyOverPasses(v: PathView, src: Path, dest: Path, order: seq<Path>)
    requires Closed(v) && src in v && v[src].meta.kind == Directory && Lists(v, src, order) && dest in v && dest != []
    ensures PlanOf(v, Cp(src, dest, true, order, map[])).Does? && Clashes(v, Cp(src, dest, true, order, map[]))
  {
    assert Hangs(v, dest) && Normal(dest);
    forall i | 0 <= i < |order| ensures order[i] in v && src <= order[i] { assert order[i] in order; }
    var i :| 0 <= i < |order| && order[i] == src;
    assert DestOf(src, dest, order[i]) == dest;
  }

  /** And the recursive removal of the root. */
  lemma RemoveRootPasses(v: PathView, order: seq<Path>)
    requires Closed(v) && Lists(v, [], order)
    ensures PlanOf(v, Rm([], true, order)).Does? && Clashes(v, Rm([], true, order))
  {
    forall i | 0 <= i < |order| ensures order[i] in v { assert order[i] in order; }
  }

  /** Each of them alone costs the scope everything it had recorded, all of which would have gone through. */
  lemma ClashLosesScope(v: PathView, tx: Tx, log: seq<Step>, s: Step)
    requires Started(v, tx.tree) && Legal(v, log + [s]) && Allocated(tx.tree, log + [s])
    requires NoneClashes(v, log) && Clashes(ViewOf(v, log), s.cmd)
    ensures Eager(v, tx, log).Some? && Eager(v, tx, log + [s]).None?
  {
    hide Started, Records, Clashes, ViewOf, Eager, NoneClashes;
    var all := log + [s];
    assert all[..|log|] == log;
    LegalPrefix(v, all, |log|);
    AllocatedPrefix(tx.tree, all);
    hide Legal, Allocated;
    RunsExactly(v, tx, log);
    RunsExactly(v, tx, all);
    NoneClashesLast(v, all);
  }
}
