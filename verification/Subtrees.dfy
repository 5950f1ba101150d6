/** Statements and cache agree for the two operations that walk a whole subtree. */
module Subtrees {
  import opened Tables
  import opened View
  import opened Commands
  import opened Agreement

  // ── rm -r ──────────────────────────────────────────────────────────────────

  ghost predicate DeepestFirst(v: PathView, at: Path, order: seq<Path>) {
    Lists(v, at, order) && forall i, j :: 0 <= i < j < |order| ==> |order[i]| >= |order[j]|
  }

  /** The entry `k` has been removed once the top entry and the first `i` listed paths were handled. */
  ghost predicate Removed(v: PathView, at: Path, order: seq<Path>, i: int, k: Key) {
    k == KeyIn(v, at) || exists j :: 0 <= j < i && j < |order| && order[j] != at && KeyIn(v, order[j]) == k
  }

  ghost function KeyIn(v: PathView, p: Path): Key {
    if ParentOf(p) in v then KeyOf(v, p) else (0, "")
  }

  /** The entries left are those of `t0` that were not removed yet. */
  ghost predicate EntriesLeft(v: PathView, t0: Tree, at: Path, order: seq<Path>, i: int, t: Tree) {
    && (forall k :: k in t.dirents <==> k in t0.dirents && !Removed(v, at, order, i, k))
    && (forall k :: k in t.dirents ==> t.dirents[k] == t0.dirents[k])
  }

  ghost predicate RmProgress(v: PathView, t0: Tree, at: Path, order: seq<Path>, i: int, t: Tree, pend: multiset<Id>) {
    && t.root == t0.root && WellFormed(t, pend) && Mirrors(Prune(v, at), t)
    && EntriesLeft(v, t0, at, order, i, t)
  }

  ghost predicate RmSetup(v: PathView, t0: Tree, at: Path, order: seq<Path>) {
    InStep(v, t0) && at in v && at != [] && v[at].meta.kind == Directory && DeepestFirst(v, at, order)
  }

  lemma TopComesLast(v: PathView, at: Path, order: seq<Path>)
    requires at in v && DeepestFirst(v, at, order)
    ensures |order| > 0 && order[|order| - 1] == at
    ensures forall i :: 0 <= i < |order| - 1 ==> order[i] != at
  {
    assert at in order;
    var n := |order| - 1;
    assert order[n] in order && at <= order[n];
    var j :| 0 <= j <= n && order[j] == at;
    assert |order[j]| >= |order[n]|;
  }

  lemma ChildHandled(v: PathView, t0: Tree, at: Path, order: seq<Path>, i: int, k: Key)
    requires RmSetup(v, t0, at, order) && 0 <= i < |order|
    requires order[i] in v && k in t0.dirents && k.0 == v[order[i]].id
    ensures Removed(v, at, order, i, k)
  {
    hide WellFormed;
    var p := order[i];
    assert p in order;
    ChildInView(v, t0, p, k);
    var c := p + [k.1];
    assert c in order && ParentOf(c) == p && NameOf(c) == k.1;
    var j :| 0 <= j < |order| && order[j] == c;
    assert |order[i]| < |order[j]|;
    assert KeyIn(v, order[j]) == k && order[j] != at;
  }

  /** Once everything below `p` is handled, no entry is left under its inode. */
  lemma HandledLeavesChildless(v: PathView, t0: Tree, at: Path, order: seq<Path>, i: int, t: Tree)
    requires RmSetup(v, t0, at, order) && 0 <= i < |order| && EntriesLeft(v, t0, at, order, i, t)
    requires order[i] in v
    ensures Childless(t, v[order[i]].id)
  {
    hide RmSetup;
    forall k | k in t.dirents ensures k.0 != v[order[i]].id {
      if k.0 == v[order[i]].id { ChildHandled(v, t0, at, order, i, k); }
    }
  }

  /** One descendant: its entry and its link go, nothing cached outside the subtree moves. */
  lemma RmOne(v: PathView, t0: Tree, at: Path, order: seq<Path>, i: int, t: Tree, pend: multiset<Id>)
    requires RmSetup(v, t0, at, order) && 0 <= i < |order| - 1 && RmProgress(v, t0, at, order, i, t, pend)
    requires order[i] in v && KeyIn(v, order[i]) in t.dirents && ParentOf(order[i]) in v
    ensures Drop(Unlink(t, KeyOf(v, order[i])), v[order[i]].id).Some?
    ensures RmProgress(v, t0, at, order, i + 1, Drop(Unlink(t, KeyOf(v, order[i])), v[order[i]].id).value, pend)
  {
    hide WellFormed, Mirrors, EntriesLeft, Removed, Drop, DropComposite;
    var p := order[i];
    assert p in order;
    TopComesLast(v, at, order);
    ParentInView(v, t0, Base(t0), p);
    var k, id := KeyOf(v, p), v[p].id;
    EntryKept(v, t0, at, order, i, t, k);
    HandledLeavesChildless(v, t0, at, order, i, t);
    RmHides(v, t0, at, p);
    MirrorUnlinkHidden(Prune(v, at), t, pend, k);
    MirrorDrop(Prune(v, at), Unlink(t, k), pend + multiset{id}, id);
    assert pend + multiset{id} - multiset{id} == pend;
    EntriesLeftNext(v, t0, at, order, i, t, DropComposite(Unlink(t, k), id));
    DropKeepsRoot(Unlink(t, k), id);
  }

  lemma DropKeepsRoot(t: Tree, id: Id)
    ensures DropComposite(t, id).root == t.root
  {
  }

  lemma EntryKept(v: PathView, t0: Tree, at: Path, order: seq<Path>, i: int, t: Tree, k: Key)
    requires EntriesLeft(v, t0, at, order, i, t) && k in t.dirents
    ensures k in t0.dirents && t.dirents[k] == t0.dirents[k]
  {
  }

  lemma EntriesLeftNext(v: PathView, t0: Tree, at: Path, order: seq<Path>, i: int, t: Tree, t2: Tree)
    requires EntriesLeft(v, t0, at, order, i, t) && 0 <= i < |order| && order[i] != at
    requires t2.dirents == t.dirents - {KeyIn(v, order[i])}
    ensures EntriesLeft(v, t0, at, order, i + 1, t2)
  {
    forall k ensures k in t2.dirents <==> k in t0.dirents && !Removed(v, at, order, i + 1, k) {
      RemovedNext(v, at, order, i, k);
      assert k in t.dirents <==> k in t0.dirents && !Removed(v, at, order, i, k);
    }
  }

  lemma RemovedNext(v: PathView, at: Path, order: seq<Path>, i: int, k: Key)
    requires 0 <= i < |order| && order[i] != at
    ensures Removed(v, at, order, i + 1, k) <==> Removed(v, at, order, i, k) || k == KeyIn(v, order[i])
  {
    if Removed(v, at, order, i + 1, k) && k != KeyIn(v, at) {
      var j :| 0 <= j < i + 1 && j < |order| && order[j] != at && KeyIn(v, order[j]) == k;
      assert j == i || Removed(v, at, order, i, k);
    }
  }

  lemma RmHides(v: PathView, t0: Tree, at: Path, p: Path)
    requires InStep(v, t0) && at in v && p in v && at <= p && p != at && ParentOf(p) in v
    requires v[ParentOf(p)].meta.kind == Directory
    ensures forall q :: q in Prune(v, at) ==> Prune(v, at)[q].id != v[ParentOf(p)].id
  {
    hide WellFormed, Mirrors;
    assert at <= ParentOf(p);
    forall q | q in Prune(v, at) ensures v[q].id != v[ParentOf(p)].id {
      if v[q].id == v[ParentOf(p)].id { SameIdSameDirectory(v, t0, Base(t0), ParentOf(p), q); }
    }
  }

  lemma RmTopGone(v: PathView, t0: Tree, at: Path, order: seq<Path>)
    requires RmSetup(v, t0, at, order)
    ensures ParentOf(at) in v && KeyOf(v, at) in t0.dirents && v[at].id != t0.root
    ensures RmProgress(v, t0, at, order, 0, Unlink(t0, KeyOf(v, at)), Base(t0) + multiset{v[at].id})
  {
    hide WellFormed, Mirrors;
    MirrorUnlink(v, t0, Base(t0), at);
  }

  lemma {:induction false} RmSteps(v: PathView, t0: Tree, at: Path, order: seq<Path>, i: nat, tx: Tx, e: nat)
    requires RmSetup(v, t0, at, order) && i < |order|
    requires forall j :: 0 <= j < |order| ==> order[j] in v
    requires RmProgress(v, t0, at, order, 0, tx.tree, Base(t0) + multiset{v[at].id})
    requires RunRmSteps(tx, RmPlan(v, at, order)[..i], e).Some?
    ensures RmProgress(v, t0, at, order, i, RunRmSteps(tx, RmPlan(v, at, order)[..i], e).value.tree,
                       Base(t0) + multiset{v[at].id})
  {
    hide RmProgress, WellFormed, Mirrors;
    var plan := RmPlan(v, at, order);
    if i > 0 {
      assert plan[..i][..i - 1] == plan[..i - 1] && plan[..i][i - 1] == plan[i - 1];
      RmSteps(v, t0, at, order, i - 1, tx, e);
      TopComesLast(v, at, order);
      assert order[i - 1] in order;
      ParentInView(v, t0, Base(t0), order[i - 1]);
      RmOne(v, t0, at, order, i - 1, RunRmSteps(tx, plan[..i - 1], e).value.tree, Base(t0) + multiset{v[at].id});
    }
  }

  /** `rm -r` removes exactly the subtree: from the tables, from the link counts and from the view. */
  lemma AgreeRmTree(v: PathView, tx: Tx, at: Path, order: seq<Path>, e: nat)
    requires RmSetup(v, tx.tree, at, order) && forall j :: 0 <= j < |order| ==> order[j] in v
    requires EntryKey(v, at).Some? && Run(RmTreeOp(EntryKey(v, at), RmPlan(v, at, order)), tx, [], e).Some?
    ensures InStep(Prune(v, at), Run(RmTreeOp(EntryKey(v, at), RmPlan(v, at, order)), tx, [], e).value.tree)
    ensures ApplyChanges(v, Deletes(order)) == Prune(v, at)
  {
    hide WellFormed, Mirrors, EntriesLeft, DropComposite;
    var plan, n, pend := RmPlan(v, at, order), |order| - 1, Base(tx.tree) + multiset{v[at].id};
    RmTopGone(v, tx.tree, at, order);
    TopComesLast(v, at, order);
    var tx1 := DeleteDirent(tx, KeyOf(v, at), e).value.0;
    assert plan[..|plan| - 1] == plan[..n];
    RmSteps(v, tx.tree, at, order, n, tx1, e);
    var a := RunRmSteps(tx1, plan[..n], e).value;
    HandledLeavesChildless(v, tx.tree, at, order, n, a.tree);
    MirrorDrop(Prune(v, at), a.tree, pend, v[at].id);
    assert pend - multiset{v[at].id} == Base(tx.tree);
    DropKeepsRoot(a.tree, v[at].id);
    ApplyDeletes(v, order);
    assert forall p :: p in order <==> p in v && at <= p;
  }

  // ── cp -r ──────────────────────────────────────────────────────────────────

  ghost predicate ShallowestFirst(v: PathView, src: Path, order: seq<Path>) {
    Lists(v, src, order) && forall i, j :: 0 <= i < j < |order| ==> |order[i]| <= |order[j]|
  }

  ghost predicate CpSetup(v: PathView, t0: Tree, src: Path, dest: Path, order: seq<Path>, ids: seq<Id>) {
    && InStep(v, t0) && src in v && dest != [] && RequireParent(v, dest).None?
    && ShallowestFirst(v, src, order) && |ids| == |order| && Fresh(t0, ids)
    && forall j :: 0 <= j < |order| ==> order[j] in v && src <= order[j]
  }

  ghost predicate Keeps(v: PathView, w: PathView) {
    forall q :: q in v ==> q in w && w[q] == v[q]
  }

  ghost predicate Placed(plan: seq<CpStep>, ids: seq<Id>, i: int, w: PathView)
    requires 0 <= i <= |plan| == |ids|
  {
    forall j :: 0 <= j < i ==> plan[j].dest in w && w[plan[j].dest] == Entry(ids[j], plan[j].meta)
  }

  ghost predicate Tracks(w: PathView, created: map<Path, Id>) {
    forall q :: q in created ==> q in w && created[q] == w[q].id
  }

  ghost predicate OnlyNew(t0: Tree, ids: seq<Id>, i: int, t: Tree)
    requires 0 <= i <= |ids|
  {
    forall id :: id in t.inodes ==> id in t0.inodes || id in ids[..i]
  }

  ghost predicate CpProgress(v: PathView, t0: Tree, plan: seq<CpStep>, ids: seq<Id>, i: int, w: PathView, t: Tree,
                             created: map<Path, Id>)
    requires 0 <= i <= |plan| == |ids|
  {
    InStep(w, t) && Keeps(v, w) && Placed(plan, ids, i, w) && Tracks(w, created) && OnlyNew(t0, ids, i, t)
  }

  lemma StoredParent(v: PathView, t: Tree, p: Path)
    requires InStep(v, t) && p in v && p != []
    ensures ParentOf(p) in v && v[ParentOf(p)].meta.kind == Directory
  {
    ParentInView(v, t, Base(t), p);
  }

  lemma DestParent(src: Path, dest: Path, p: Path)
    requires src <= p && dest != []
    ensures DestOf(src, dest, p) != []
    ensures p == src || (src == [] && |p| == 1) ==> ParentOf(DestOf(src, dest, p)) == ParentOf(dest)
    ensures p != src && !(src == [] && |p| == 1) ==>
              src <= ParentOf(p) && ParentOf(DestOf(src, dest, p)) == DestOf(src, dest, ParentOf(p))
  {
    if src == [] && |p| > 1 {
      assert ParentOf(p)[1..] == p[1..][..|p| - 2];
    } else if p != src {
      assert ParentOf(p)[|src|..] == p[|src|..][..|p| - |src| - 1];
    }
  }

  /** The parent a copied entry goes under is there already, and is a directory. */
  lemma CopyParent(v: PathView, t0: Tree, src: Path, dest: Path, order: seq<Path>, modes: Modes, ids: seq<Id>, i: int,
                   w: PathView)
    requires CpSetup(v, t0, src, dest, order, ids) && 0 <= i < |order|
    requires Keeps(v, w) && Placed(CpPlan(v, src, dest, order, modes), ids, i, w)
    ensures DestOf(src, dest, order[i]) != [] && ParentOf(DestOf(src, dest, order[i])) in w
    ensures w[ParentOf(DestOf(src, dest, order[i]))].meta.kind == Directory
  {
    hide InStep, Fresh;
    var p := order[i];
    DestParent(src, dest, p);
    if p != src && !(src == [] && |p| == 1) {
      StoredParent(v, t0, p);
      hide Keeps;
      var j := IndexOf(v, src, order, ParentOf(p));
      assert |order[j]| < |order[i]|;
      assert j < i;
      assert CpPlan(v, src, dest, order, modes)[j].dest == DestOf(src, dest, ParentOf(p));
    }
  }

  lemma IndexOf(v: PathView, src: Path, order: seq<Path>, p: Path) returns (j: nat)
    requires Lists(v, src, order) && p in v && src <= p
    ensures j < |order| && order[j] == p
  {
    assert p in order;
    j :| 0 <= j < |order| && order[j] == p;
  }

  /** A free slot in the tables is a free path in the view. */
  lemma SlotFree(w: PathView, t: Tree, at: Path)
    requires InStep(w, t) && at != [] && ParentOf(at) in w && KeyOf(w, at) !in t.dirents
    ensures at !in w
  {
  }

  lemma CpOne(v: PathView, t0: Tree, src: Path, dest: Path, order: seq<Path>, modes: Modes, ids: seq<Id>, i: int,
              w: PathView, tx: Tx, created: map<Path, Id>, e: nat)
    requires CpSetup(v, t0, src, dest, order, ids) && 0 <= i < |order|
    requires CpProgress(v, t0, CpPlan(v, src, dest, order, modes), ids, i, w, tx.tree, created)
    requires RunCpStep(tx, created, CpPlan(v, src, dest, order, modes)[i], ids[i], e).Some?
    ensures var plan := CpPlan(v, src, dest, order, modes);
            var r := RunCpStep(tx, created, plan[i], ids[i], e).value;
            CpProgress(v, t0, plan, ids, i + 1, w[plan[i].dest := Entry(ids[i], plan[i].meta)], r.0.tree, r.1)
  {
    hide WellFormed, Mirrors, Keeps, Placed, OnlyNew, Lists;
    var plan := CpPlan(v, src, dest, order, modes);
    var s := plan[i];
    CopyParent(v, t0, src, dest, order, modes, ids, i, w);
    ParentTracked(v, w, created, ParentOf(s.dest));
    IdStored(w, tx.tree, ParentOf(s.dest));
    SlotFree(w, tx.tree, s.dest);
    StillFresh(t0, ids, i, tx.tree);
    AgreeCreate(w, tx.tree, s.dest, s.meta, ids[i]);
    Placing(v, t0, plan, ids, i, w, tx.tree);
  }

  lemma ParentTracked(v: PathView, w: PathView, created: map<Path, Id>, q: Path)
    requires Keeps(v, w) && Tracks(w, created)
    ensures q in created ==> q in w && created[q] == w[q].id
    ensures q in v ==> q in w && v[q].id == w[q].id
  {
  }

  lemma StillFresh(t0: Tree, ids: seq<Id>, i: int, t: Tree)
    requires 0 <= i < |ids| && Fresh(t0, ids) && OnlyNew(t0, ids, i, t)
    ensures ids[i] !in t.inodes
  {
  }

  lemma Placing(v: PathView, t0: Tree, plan: seq<CpStep>, ids: seq<Id>, i: int, w: PathView, t: Tree)
    requires 0 <= i < |plan| == |ids| && Keeps(v, w) && Placed(plan, ids, i, w) && OnlyNew(t0, ids, i, t)
    requires plan[i].dest !in w
    ensures Keeps(v, w[plan[i].dest := Entry(ids[i], plan[i].meta)])
    ensures Placed(plan, ids, i + 1, w[plan[i].dest := Entry(ids[i], plan[i].meta)])
    ensures forall t2: Tree :: t2.inodes.Keys == t.inodes.Keys + {ids[i]} ==> OnlyNew(t0, ids, i + 1, t2)
  {
    assert ids[..i + 1] == ids[..i] + [ids[i]];
  }

  lemma {:induction false} CpSteps(v: PathView, src: Path, dest: Path, order: seq<Path>, modes: Modes, ids: seq<Id>,
                                   i: nat, tx: Tx, e: nat)
    requires CpSetup(v, tx.tree, src, dest, order, ids) && i <= |order|
    requires RunCpSteps(tx, CpPlan(v, src, dest, order, modes)[..i], ids[..i], e).Some?
    ensures var plan := CpPlan(v, src, dest, order, modes);
            var r := RunCpSteps(tx, plan[..i], ids[..i], e).value;
            CpProgress(v, tx.tree, plan, ids, i, ApplyChanges(v, CopyPuts(plan, ids)[..i]), r.0.tree, r.1)
  {
    hide CpProgress, InStep, RunCpStep, Fresh, Lists, CpPlan, ShallowestFirst, RequireParent;
    var plan := CpPlan(v, src, dest, order, modes);
    var puts := CopyPuts(plan, ids);
    if i == 0 {
      assert ApplyChanges(v, []) == v;
      CpStart(v, tx.tree, plan, ids);
    } else {
      assert plan[..i][..i - 1] == plan[..i - 1] && ids[..i][..i - 1] == ids[..i - 1];
      assert puts[..i][..i - 1] == puts[..i - 1];
      CpSteps(v, src, dest, order, modes, ids, i - 1, tx, e);
      var a := RunCpSteps(tx, plan[..i - 1], ids[..i - 1], e).value;
      CpOne(v, tx.tree, src, dest, order, modes, ids, i - 1, ApplyChanges(v, puts[..i - 1]), a.0, a.1, e);
    }
  }

  lemma CpStart(v: PathView, t: Tree, plan: seq<CpStep>, ids: seq<Id>)
    requires InStep(v, t) && |plan| == |ids|
    ensures CpProgress(v, t, plan, ids, 0, v, t, map[])
  {
    hide InStep;
  }

  /** `cp -r` adds exactly the copies, in the tables as in the view. */
  lemma AgreeCpTree(v: PathView, tx: Tx, src: Path, dest: Path, order: seq<Path>, modes: Modes, ids: seq<Id>, e: nat)
    requires CpSetup(v, tx.tree, src, dest, order, ids)
    requires Run(CpTreeOp(CpPlan(v, src, dest, order, modes)), tx, ids, e).Some?
    ensures InStep(ApplyChanges(v, CopyPuts(CpPlan(v, src, dest, order, modes), ids)),
                   Run(CpTreeOp(CpPlan(v, src, dest, order, modes)), tx, ids, e).value.tree)
  {
    hide CpProgress, InStep, RunCpStep;
    var plan, n := CpPlan(v, src, dest, order, modes), |order|;
    assert plan[..n] == plan && ids[..n] == ids && CopyPuts(plan, ids)[..n] == CopyPuts(plan, ids);
    CpSteps(v, src, dest, order, modes, ids, n, tx, e);
    var r := RunCpSteps(tx, plan, ids, e).value;
    CpDone(v, tx.tree, plan, ids, ApplyChanges(v, CopyPuts(plan, ids)), r.0.tree, r.1);
  }

  lemma CpDone(v: PathView, t0: Tree, plan: seq<CpStep>, ids: seq<Id>, w: PathView, t: Tree, created: map<Path, Id>)
    requires |plan| == |ids| && CpProgress(v, t0, plan, ids, |plan|, w, t, created)
    ensures InStep(w, t)
  {
    hide InStep;
  }
}
