/** The journal keeps only the last of two writes in a row to the same directory entry. Replaying it
    does what running every command at once would have done. */
module Coalescing {
  import opened Options
  import opened Tables
  import opened View
  import opened Commands
  import opened Agreement
  import opened CommandLaw
  import opened Renaming
  import opened Runs
  import opened Replay

  /** `supersedes`: the entry a mutation overwrites whatever it held. Only file writes have one. */
  function Supersedes(op: Op): Option<Key> {
    if op.WriteOp? then Some(op.key) else None
  }

  predicate Superseding(journal: seq<Buffered>, op: Op) {
    && journal != [] && Supersedes(op).Some?
    && Supersedes(journal[|journal| - 1].op) == Supersedes(op)
  }

  function Keep(journal: seq<Buffered>, b: Buffered): (r: seq<Buffered>)
    ensures r != [] && r[|r| - 1] == b
    ensures r[..|r| - 1] == if Superseding(journal, b.op) then journal[..|journal| - 1] else journal
  {
    if Superseding(journal, b.op) then journal[..|journal| - 1] + [b] else journal + [b]
  }

  /** Two file writes in a row to one directory entry leave one entry of the journal, the second; any other mutation
      adds one, and nothing before the last entry is ever touched. */
  lemma KeepsExactly(journal: seq<Buffered>, b: Buffered)
    ensures var k, n := Keep(journal, b), |journal|;
            var again := n > 0 && b.op.WriteOp? && journal[n - 1].op.WriteOp? && journal[n - 1].op.key == b.op.key;
            && |k| == (if again then n else n + 1) && k[|k| - 1] == b
            && forall i :: 0 <= i < |k| - 1 ==> k[i] == journal[i]
  {
    var k := Keep(journal, b);
    assert forall i :: 0 <= i < |k| - 1 ==> k[i] == k[..|k| - 1][i];
  }

  /** However often a file is written in a row, the journal and what it is charged are as if only the last write had
      been made. */
  lemma OnlyLastKept(journal: seq<Buffered>, a: Buffered, b: Buffered)
    requires a.op.WriteOp? && b.op.WriteOp? && a.op.key == b.op.key
    ensures Keep(Keep(journal, a), b) == Keep(journal, b)
  {
    var k := Keep(journal, a);
    assert Keep(k, b) == k[..|k| - 1] + [b];
  }

  /** The journal a scope holds after a run of recorded commands, and the ids of the entries kept. */
  function Kept(v: PathView, log: seq<Step>): (r: (seq<Buffered>, seq<seq<Id>>))
    ensures |r.0| == |r.1|
  {
    if log == [] then ([], []) else
    var n := |log| - 1;
    var k := Kept(v, log[..n]);
    var plan := PlanOf(ViewOf(v, log[..n]), log[n].cmd);
    if !plan.Does? then k else
    var b := Buffered(plan.op, log[n].minted, log[n].bytes);
    (Keep(k.0, b), (if Superseding(k.0, b.op) then k.1[..|k.1| - 1] else k.1) + [log[n].stored])
  }

  ghost predicate Unknown(t: Tree, id: Id) {
    id !in t.inodes && forall j :: j in t.dirents ==> j.0 != id && t.dirents[j] != id
  }

  function FreeSlot(t: Tree, k: Key): Tree {
    if k in t.dirents then DropComposite(Unlink(t, k), t.dirents[k]) else t
  }

  lemma SlotFreed(t: Tree, k: Key, id: Id)
    requires Unknown(t, id) && k.0 in t.inodes && (k in t.dirents ==> t.dirents[k] != k.0)
    ensures Unknown(FreeSlot(t, k), id) && k !in FreeSlot(t, k).dirents && k.0 in FreeSlot(t, k).inodes
  {
  }

  lemma WrittenShape(t: Tree, k: Key, meta: Meta, id: Id)
    requires Unknown(t, id) && k.0 in t.inodes && (k in t.dirents ==> t.dirents[k] != k.0)
    ensures Written(t, k, meta, id) == Link(AddInode(FreeSlot(t, k), id, meta), k, id)
  {
    if k in t.dirents {
      var prior := t.dirents[k];
      assert prior != id;
      if prior in t.inodes && t.inodes[prior].nlink <= 1 {
        RemoveCommutes(t, k, meta, id);
        hide RemoveInode, AddInode, Link;
      } else if prior in t.inodes {
        SetNlinkCommutes(t, k, meta, id, t.inodes[prior].nlink - 1);
      } else {
        assert Unlink(t, k).dirents[k := id] == t.dirents[k := id];
      }
    }
  }

  lemma SetNlinkCommutes(t: Tree, k: Key, meta: Meta, id: Id, n: int)
    requires k in t.dirents && t.dirents[k] in t.inodes && t.dirents[k] != id
    ensures SetNlink(Link(AddInode(t, id, meta), k, id), t.dirents[k], n)
            == Link(AddInode(SetNlink(Unlink(t, k), t.dirents[k], n), id, meta), k, id)
  {
    assert Unlink(t, k).dirents[k := id] == t.dirents[k := id];
    var prior := t.dirents[k];
    assert t.inodes[id := Inode(meta, 1)][prior := t.inodes[prior].(nlink := n)]
        == t.inodes[prior := t.inodes[prior].(nlink := n)][id := Inode(meta, 1)];
  }

  lemma RemoveCommutes(t: Tree, k: Key, meta: Meta, id: Id)
    requires k in t.dirents && t.dirents[k] != id && t.dirents[k] != k.0
    ensures RemoveInode(Link(AddInode(t, id, meta), k, id), t.dirents[k])
            == Link(AddInode(RemoveInode(Unlink(t, k), t.dirents[k]), id, meta), k, id)
  {
    var prior := t.dirents[k];
    var a, b := RemoveInode(Link(AddInode(t, id, meta), k, id), prior),
        Link(AddInode(RemoveInode(Unlink(t, k), prior), id, meta), k, id);
    assert a.inodes == b.inodes;
    forall j ensures j in a.dirents <==> j in b.dirents {}
    assert a.dirents == b.dirents;
  }

  lemma FreeAgain(b: Tree, k: Key, meta: Meta, id: Id)
    requires Unknown(b, id) && k !in b.dirents
    ensures FreeSlot(Link(AddInode(b, id, meta), k, id), k) == b
  {
    var a := Link(AddInode(b, id, meta), k, id);
    assert Unlink(a, k).dirents == b.dirents;
    assert RemoveInode(Unlink(a, k), id).inodes == b.inodes;
    assert RemoveInode(Unlink(a, k), id).dirents == b.dirents;
  }

  /** Writing an entry twice leaves the tables of the second write alone. */
  lemma WriteTwice(t: Tree, k: Key, m1: Meta, m2: Meta, id1: Id, id2: Id)
    requires Unknown(t, id1) && Unknown(t, id2) && id1 != id2
    requires k.0 in t.inodes && (k in t.dirents ==> t.dirents[k] != k.0)
    ensures var a := Written(t, k, m1, id1);
            && k.0 in a.inodes && Written(a, k, m2, id2) == Written(t, k, m2, id2)
  {
    var b := FreeSlot(t, k);
    var a := Written(t, k, m1, id1);
    WrittenShape(t, k, m1, id1);
    WrittenShape(t, k, m2, id2);
    SlotFreed(t, k, id1);
    SlotFreed(t, k, id2);
    FreeAgain(b, k, m1, id1);
    hide FreeSlot, Written;
    assert a.dirents == b.dirents[k := id1];
    assert Unknown(a, id2);
    WrittenShape(a, k, m2, id2);
  }

  /** What `writeFileComposite` does to the tables. */
  function Written(t: Tree, k: Key, meta: Meta, id: Id): Tree {
    var prior := Find(t, k);
    var t2 := Link(AddInode(t, id, meta), k, id);
    if prior.Some? then DropComposite(t2, prior.value) else t2
  }

  lemma WriteRuns(tx: Tx, k: Key, meta: Meta, id: Id, e: nat)
    requires Live(tx, e)
    ensures var r := Run(WriteOp(k, meta), tx, [id], e);
            && (r.Some? <==> k.0 in tx.tree.inodes)
            && (r.Some? ==> r.value.tree == Written(tx.tree, k, meta, id))
  {
  }

  // ── The step that replaces the last entry ──────────────────────────────────

  predicate FileMeta(m: Meta) {
    m.kind == File && m.sha.Some? && m.target.None?
  }

  ghost predicate Writable(u: PathView, p: Path) {
    p != [] && Normal(p) && RequireParent(u, p).None? && (p in u ==> u[p].meta.kind != Directory)
  }

  /** A file write at `p`, planned against `u`, is the last thing that happened. */
  ghost predicate Wrote(u: PathView, p: Path, f: Remap, a: Tx, b: Buffered, w: PathView, e: nat) {
    && InSync(u, f, a.tree) && Live(a, e)
    && Writable(u, p)
    && b.op.WriteOp? && b.op.key == KeyOf(u, p) && FileMeta(b.op.meta)
    && |b.minted| == 1 && w == u[p := Entry(b.minted[0], b.op.meta)]
  }

  /** The same write as a command with every choice made explicit. */
  function Explicit(p: Path, m: Meta, minted: seq<Id>, stored: seq<Id>): Step
    requires FileMeta(m)
  {
    Step(WriteFile(p, Some(m.mode), m.size, m.sha.value), minted, stored, 0)
  }

  lemma ExplicitRecords(u: PathView, p: Path, m: Meta, minted: seq<Id>, stored: seq<Id>)
    requires Writable(u, p)
    requires FileMeta(m) && |minted| == 1 == |stored|
    ensures var s := Explicit(p, m, minted, stored);
            && Records(u, s) && PlanOf(u, s.cmd) == Does(WriteOp(KeyOf(u, p), m))
            && After(u, s) == u[p := Entry(minted[0], m)]
  {
    OneChange(u, Put(p, Entry(minted[0], m)));
  }

  lemma SlotSound(v: PathView, t: Tree, p: Path)
    requires InStep(v, t) && Writable(v, p)
    ensures KeyOf(v, p).0 in t.inodes
    ensures KeyOf(v, p) in t.dirents ==> t.dirents[KeyOf(v, p)] != KeyOf(v, p).0
  {
    hide WellFormed, Mirrors;
    IdStored(v, t, ParentOf(p));
    IdStored(v, t, p);
    if p in v { ParentInView(v, t, Base(t), p); } else { FreePath(v, t, p); }
  }

  lemma FreshUnknown(f: Remap, t: Tree, minted: seq<Id>, stored: seq<Id>)
    requires Consistent(t) && NewIds(f, t, minted, stored) && |minted| == 1
    ensures |stored| == 1 && Unknown(t, stored[0])
    ensures Bind(f, minted, stored).Keys == f.Keys + Elems(minted)
  {
    BindValues(f, minted, stored);
    forall j | j in t.dirents ensures j.0 != stored[0] && t.dirents[j] != stored[0] { assert Anchored(t, j); }
  }

  /** Two writes with the same `supersedes` key are writes to the same path. */
  lemma SamePath(u: PathView, p: Path, f: Remap, a: Tx, b: Buffered, w: PathView, e: nat, cmd: Cmd)
    requires Wrote(u, p, f, a, b, w, e) && cmd.WriteFile? && PlanOf(w, cmd).Does?
    requires PlanOf(w, cmd).op.key == b.op.key
    ensures cmd.path == p
  {
    hide WellFormed, Mirrors;
    var ru, q := RenameIds(u, f), cmd.path;
    IdStored(ru, a.tree, []);
    assert [] in u && w[[]] == u[[]] && u[[]].meta.kind == Directory;
    assert q != [];
    assert ParentOf(q) != p && ParentOf(q) in u && u[ParentOf(q)].id == u[ParentOf(p)].id;
    SameIdSameDirectory(ru, a.tree, Base(a.tree), ParentOf(p), ParentOf(q));
    assert p == ParentOf(p) + [NameOf(p)] && q == ParentOf(q) + [NameOf(q)];
  }

  /** What a write does to a state in which it was planned. */
  lemma WriteReplays(u: PathView, p: Path, f: Remap, a: Tx, m: Meta, minted: seq<Id>, stored: seq<Id>, bytes: nat,
                     e: nat)
    requires InSync(u, f, a.tree) && Live(a, e) && FileMeta(m)
    requires Writable(u, p)
    requires |minted| == 1 && NewIds(f, a.tree, minted, stored)
    ensures var k, r := RealKey(f, KeyOf(u, p)),
            ReplayOne(a, f, Buffered(WriteOp(KeyOf(u, p), m), minted, bytes), stored, e);
            && r.Some? && r.value.0.tree == Written(a.tree, k, m, stored[0]) && r.value.1 == Bind(f, minted, stored)
            && Live(r.value.0, e) && KeepsIds(a.tree, r.value.0.tree, stored) && r.value.0.version > a.version
            && InSync(u[p := Entry(minted[0], m)], Bind(f, minted, stored), r.value.0.tree)
            && RenameIds(u[p := Entry(minted[0], m)], Bind(f, minted, stored))
               == RenameIds(u, f)[p := Entry(stored[0], m)]
            && k.0 in a.tree.inodes && (k in a.tree.dirents ==> a.tree.dirents[k] != k.0)
  {
    var s, ru := Explicit(p, m, minted, stored), RenameIds(u, f);
    hide RenameIds, Publish, InSync, PlanOf, Writable, ReplayOne, After, Run, Bound, KeyOf, Written, Distinct, Fresh,
         Bind, Elems;
    ExplicitRecords(u, p, m, minted, stored);
    StepInSync(u, f, a, s, e);
    WritableRenames(u, f, p);
    ExplicitRecords(ru, p, m, stored, stored);
    SlotSound(ru, a.tree, p) by { SyncedSteps(u, f, a.tree); }
    assert stored == [stored[0]];
    WriteRuns(a, KeyOf(ru, p), m, stored[0], e);
    RunFollows(WriteOp(KeyOf(ru, p), m), a, stored, e);
    SingleAdvances(WriteOp(KeyOf(ru, p), m), a, stored, e);
    assert RealOp(f, WriteOp(KeyOf(u, p), m)) == WriteOp(KeyOf(ru, p), m);
    ReplaysAs(a, f, Buffered(WriteOp(KeyOf(u, p), m), minted, bytes), stored, e);
    PublishWrite(ru, s.cmd, stored);
  }

  lemma ReplaysAs(a: Tx, f: Remap, b: Buffered, stored: seq<Id>, e: nat)
    requires |stored| == |b.minted| == Mints(b.op) && Bound(f, b.op) && Run(RealOp(f, b.op), a, stored, e).Some?
    ensures ReplayOne(a, f, b, stored, e) == Some((Run(RealOp(f, b.op), a, stored, e).value, Bind(f, b.minted, stored)))
  {
  }

  lemma WritableRenames(u: PathView, f: Remap, p: Path)
    requires Writable(u, p)
    ensures ParentOf(p) in u && ParentOf(p) in RenameIds(u, f)
    ensures Writable(RenameIds(u, f), p) && RealKey(f, KeyOf(u, p)) == KeyOf(RenameIds(u, f), p)
  {
    RealEntry(u, f, p);
    RealEntry(u, f, ParentOf(p));
  }

  lemma SyncedSteps(u: PathView, f: Remap, t: Tree)
    requires InSync(u, f, t)
    ensures InStep(RenameIds(u, f), t)
  {
  }

  /** The key of a write resolves to the same entry after another write to it was bound. */
  lemma SameRealKey(u: PathView, p: Path, f: Remap, t: Tree, minted: seq<Id>, stored: seq<Id>)
    requires InSync(u, f, t) && Writable(u, p) && NewIds(f, t, minted, stored)
    ensures RealKey(Bind(f, minted, stored), KeyOf(u, p)) == RealKey(f, KeyOf(u, p))
  {
    hide InStep;
    BindValues(f, minted, stored);
    assert IdBound(f, u[ParentOf(p)].id);
  }

  /** The entry that replaced an earlier write replays to what both writes, run at once, leave. */
  lemma ReplaceLast(u: PathView, p: Path, f: Remap, a: Tx, b: Buffered, id: seq<Id>, w: PathView, s: Step, db: Tx,
                    e: nat)
    requires Wrote(u, p, f, a, b, w, e) && NewIds(f, a.tree, b.minted, id)
    requires Records(w, s) && PlanOf(w, s.cmd).op.WriteOp? && PlanOf(w, s.cmd).op.key == b.op.key
    requires NewIds(f, a.tree, s.minted, s.stored) && s.stored[0] != id[0]
    requires ReplayOne(a, f, b, id, e).Some? ==> db.tree == ReplayOne(a, f, b, id, e).value.0.tree
    ensures ReplayOne(a, f, b, id, e).Some?
    ensures var r := ReplayOne(a, f, Buffered(PlanOf(w, s.cmd).op, s.minted, s.bytes), s.stored, e);
            var g := EagerOne(RenameIds(w, ReplayOne(a, f, b, id, e).value.1), db, s.cmd, s.stored);
            && r.Some? && g.Some? && r.value.0.tree == g.value.1.tree && Live(r.value.0, e)
            && InSync(After(w, s), r.value.1, r.value.0.tree)
            && g.value.0 == RenameIds(After(w, s), r.value.1)
            && KeepsIds(a.tree, r.value.0.tree, s.stored) && r.value.0.version > a.version
            && r.value.1.Keys == f.Keys + Elems(s.minted)
    ensures Wrote(u, p, f, a, Buffered(PlanOf(w, s.cmd).op, s.minted, s.bytes), After(w, s), e)
  {
    var m1, m2, t := b.op.meta, PlanOf(w, s.cmd).op.meta, a.tree;
    hide InSync, PlanOf, ReplayOne, EagerOne, Records, Writable, After, Written, KeyOf, RenameIds, InjectiveOn, IdsOf;
    hide Consistent, Unknown, NewIds, Elems, Bind, KeepsIds, Live, RealKey;
    PlannedWrite(w, s);
    SamePath(u, p, f, a, b, w, e, s.cmd);
    assert b == Buffered(WriteOp(KeyOf(u, p), m1), b.minted, b.bytes);
    var key, f1, k := KeyOf(u, p), Bind(f, b.minted, id), RealKey(f, KeyOf(u, p));
    WriteReplays(u, p, f, a, m1, b.minted, id, b.bytes, e);
    WriteReplays(u, p, f, a, m2, s.minted, s.stored, s.bytes, e);
    SameRealKey(u, p, f, t, b.minted, id);
    SyncedInjective(w, f1, db.tree);
    SyncedInjective(u, f, t);
    FreshUnknown(f, t, b.minted, id);
    FreshUnknown(f, t, s.minted, s.stored);
    SecondWrite(w, f1, k, t, m1, m2, id[0], s, key, db);
    PutTwice(u, p, Entry(b.minted[0], m1), Entry(s.minted[0], m2));
    PutTwice(RenameIds(u, f), p, Entry(id[0], m1), Entry(s.stored[0], m2));
  }

  lemma PutTwice(u: PathView, p: Path, x: Entry, y: Entry)
    ensures u[p := x][p := y] == u[p := y]
  {
  }

  lemma PlannedWrite(w: PathView, s: Step)
    requires Records(w, s) && PlanOf(w, s.cmd).op.WriteOp?
    ensures s.cmd.WriteFile? && FileMeta(PlanOf(w, s.cmd).op.meta) && |s.minted| == 1 == |s.stored|
    ensures s.cmd.path != [] ==> Writable(w, s.cmd.path) && PlanOf(w, s.cmd).op.key == KeyOf(w, s.cmd.path)
    ensures After(w, s) == w[s.cmd.path := Entry(s.minted[0], PlanOf(w, s.cmd).op.meta)]
  {
    OneChange(w, Put(s.cmd.path, Entry(s.minted[0], PlanOf(w, s.cmd).op.meta)));
  }

  /** Running the second write at once, on the tables the first one left. */
  lemma SecondWrite(w: PathView, g: Remap, k: Key, t: Tree, m1: Meta, m2: Meta, id: Id, s: Step, key: Key, db: Tx)
    requires InjectiveOn(g, IdsOf(w)) && Records(w, s) && PlanOf(w, s.cmd) == Does(WriteOp(key, m2))
             && RealKey(g, key) == k
    requires |s.stored| == 1 && Unknown(t, id) && Unknown(t, s.stored[0]) && s.stored[0] != id
    requires k.0 in t.inodes && (k in t.dirents ==> t.dirents[k] != k.0)
    requires db.tree == Written(t, k, m1, id) && s.cmd.WriteFile?
    ensures var r := EagerOne(RenameIds(w, g), db, s.cmd, s.stored);
            && r.Some? && r.value.1.tree == Written(t, k, m2, s.stored[0])
            && r.value.0 == RenameIds(w, g)[s.cmd.path := Entry(s.stored[0], m2)]
  {
    hide Run, Written, PlanOf, InjectiveOn, Publish, Unknown, Records, IdsOf, RenameIds;
    WriteTwice(t, k, m1, m2, id, s.stored[0]);
    PlanRenames(w, g, s.cmd);
    assert s.stored == [s.stored[0]];
    WriteRuns(Begin(db), k, m2, s.stored[0], db.version);
    PublishWrite(RenameIds(w, g), s.cmd, s.stored);
  }

  lemma SyncedInjective(u: PathView, f: Remap, t: Tree)
    requires InSync(u, f, t)
    ensures InjectiveOn(f, IdsOf(u)) && Consistent(t)
  {
  }

  lemma PublishWrite(v: PathView, cmd: Cmd, ids: seq<Id>)
    requires cmd.WriteFile? && PlanOf(v, cmd).Does? && |ids| == 1
    ensures Publish(v, cmd, ids) == v[cmd.path := Entry(ids[0], PlanOf(v, cmd).op.meta)]
  {
    OneChange(v, Put(cmd.path, Entry(ids[0], PlanOf(v, cmd).op.meta)));
  }

  // ── Whole scopes ───────────────────────────────────────────────────────────

  function Flush(tx: Tx, k: (seq<Buffered>, seq<seq<Id>>), e: nat): Option<(Tx, Remap)>
    requires |k.0| == |k.1|
  {
    ReplayAll(tx, map[], k.0, k.1, e)
  }

  ghost predicate Uses(tx: Tx, log: seq<Step>, r: (Tx, Remap)) {
    KeepsIds(tx.tree, r.0.tree, Reals(log)) && r.1.Keys <= Elems(Minteds(log))
  }

  /** The flush of the kept journal and the commands run at once end in the same tables, and the
      scope's view with its ids renamed is the tree of those tables. */
  ghost predicate SameTables(v: PathView, tx: Tx, log: seq<Step>, r: Option<(Tx, Remap)>, g: Option<(PathView, Tx)>,
                             e: nat) {
    && (r.Some? <==> g.Some?)
    && (r.Some? ==>
          && r.value.0.tree == g.value.1.tree && Live(r.value.0, e) && Uses(tx, log, r.value)
          && InSync(ViewOf(v, log), r.value.1, r.value.0.tree)
          && g.value.0 == RenameIds(ViewOf(v, log), r.value.1)
          && (log != [] ==> r.value.0.version > e))
  }

  function Front(k: (seq<Buffered>, seq<seq<Id>>)): (r: (seq<Buffered>, seq<seq<Id>>))
    requires |k.0| == |k.1| > 0
    ensures |r.0| == |r.1|
  {
    (k.0[..|k.0| - 1], k.1[..|k.1| - 1])
  }

  /** When the kept journal ends with a write, the rest of it leads to the tables that write saw. */
  ghost predicate EndsInWrite(tx: Tx, log: seq<Step>, k: (seq<Buffered>, seq<seq<Id>>), w: PathView, e: nat)
    requires |k.0| == |k.1|
  {
    k.0 != [] && k.0[|k.0| - 1].op.WriteOp? && Flush(tx, Front(k), e).Some? ==>
      var r, b, id := Flush(tx, Front(k), e).value, k.0[|k.0| - 1], k.1[|k.0| - 1];
      && Uses(tx, log, r) && NewIds(r.1, r.0.tree, b.minted, id) && (forall i :: i in id ==> i in Reals(log))
      && exists u, p :: Wrote(u, p, r.1, r.0, b, w, e)
  }

  lemma FlushLast(tx: Tx, k: (seq<Buffered>, seq<seq<Id>>), e: nat)
    requires |k.0| == |k.1| > 0
    ensures Flush(tx, k, e) == match Flush(tx, Front(k), e)
                               case None => None
                               case Some(r) => ReplayOne(r.0, r.1, k.0[|k.0| - 1], k.1[|k.0| - 1], e)
  {
  }

  lemma KeptLast(v: PathView, log: seq<Step>)
    requires log != [] && PlanOf(ViewOf(v, log[..|log| - 1]), log[|log| - 1].cmd).Does?
    ensures var n := |log| - 1;
            var k, prior, op := Kept(v, log), Kept(v, log[..n]), PlanOf(ViewOf(v, log[..n]), log[n].cmd).op;
            && |k.0| > 0 && k.0[|k.0| - 1] == Buffered(op, log[n].minted, log[n].bytes)
               && k.1[|k.0| - 1] == log[n].stored
            && (Superseding(prior.0, op) ==> |prior.0| > 0 && Front(k) == Front(prior))
            && (!Superseding(prior.0, op) ==> Front(k) == prior)
  {
    hide PlanOf, ViewOf;
    var n := |log| - 1;
    var prior := Kept(v, log[..n]);
    hide Kept;
    assert (prior.1 + [log[n].stored])[..|prior.1|] == prior.1;
    if prior.1 != [] { assert (Front(prior).1 + [log[n].stored])[..|prior.1| - 1] == Front(prior).1; }
  }

  lemma UsesMore(tx: Tx, log: seq<Step>, r: (Tx, Remap))
    requires log != [] && Uses(tx, log[..|log| - 1], r)
    ensures Uses(tx, log, r)
  {
    var n := |log| - 1;
    assert forall id :: id in Minteds(log[..n]) ==> id in Minteds(log);
    assert forall id :: id in Reals(log[..n]) ==> id in Reals(log);
  }

  lemma UsesLast(tx: Tx, log: seq<Step>, a: (Tx, Remap), r: (Tx, Remap))
    requires log != [] && Uses(tx, log, a)
    requires KeepsIds(a.0.tree, r.0.tree, log[|log| - 1].stored) && r.1.Keys == a.1.Keys + Elems(log[|log| - 1].minted)
    ensures Uses(tx, log, r)
  {
    var n := |log| - 1;
    assert forall id :: id in log[n].minted ==> id in Minteds(log);
    assert forall id :: id in log[n].stored ==> id in Reals(log);
  }

  lemma AppendStep(v: PathView, tx: Tx, log: seq<Step>, e: nat)
    requires log != [] && Allocated(tx.tree, log) && Records(ViewOf(v, log[..|log| - 1]), log[|log| - 1])
    requires !Superseding(Kept(v, log[..|log| - 1]).0, PlanOf(ViewOf(v, log[..|log| - 1]), log[|log| - 1].cmd).op)
    requires SameTables(v, tx, log[..|log| - 1], Flush(tx, Kept(v, log[..|log| - 1]), e),
             Eager(v, tx, log[..|log| - 1]), e)
    ensures SameTables(v, tx, log, Flush(tx, Kept(v, log), e), Eager(v, tx, log), e)
    ensures EndsInWrite(tx, log, Kept(v, log), ViewOf(v, log), e)
  {
    hide InSync, PlanOf, Records, Allocated, After, ReplayOne, EagerOne, Live, Uses, Kept, Flush, Reals, Elems,
         RenameIds, Wrote, Superseding;
    var n := |log| - 1;
    var s, u := log[n], ViewOf(v, log[..n]);
    PlansIt(u, s);
    KeptLast(v, log);
    FlushLast(tx, Kept(v, log), e);
    var r, g := Flush(tx, Kept(v, log[..n]), e), Eager(v, tx, log[..n]);
    if r.Some? {
      UsesMore(tx, log, r.value);
      UsesNew(tx, log, r.value);
      OneMore(u, r.value.1, r.value.0, g.value.1, s, e, g.value.1.version - r.value.0.version);
      var r2 := Flush(tx, Kept(v, log), e);
      if r2.Some? { UsesLast(tx, log, r.value, r2.value); }
      LiveVersion(r.value.0, e);
      StoredInReals(log);
      if PlanOf(u, s.cmd).op.WriteOp? { WroteNow(u, r.value.1, r.value.0, s, e); }
    }
  }

  lemma StoredInReals(log: seq<Step>)
    requires log != []
    ensures forall i :: i in log[|log| - 1].stored ==> i in Reals(log)
  {
  }

  lemma UsesNew(tx: Tx, log: seq<Step>, r: (Tx, Remap))
    requires log != [] && Allocated(tx.tree, log) && Uses(tx, log[..|log| - 1], r)
    requires |log[|log| - 1].minted| == |log[|log| - 1].stored|
    ensures NewIds(r.1, r.0.tree, log[|log| - 1].minted, log[|log| - 1].stored)
  {
    LastIdsNew(tx.tree, log, r.1, r.0.tree);
  }

  lemma WroteNow(u: PathView, f: Remap, a: Tx, s: Step, e: nat)
    requires InSync(u, f, a.tree) && Live(a, e) && Records(u, s) && PlanOf(u, s.cmd).op.WriteOp?
    ensures exists p :: Wrote(u, p, f, a, Buffered(PlanOf(u, s.cmd).op, s.minted, s.bytes), After(u, s), e)
  {
    hide WellFormed, Mirrors;
    PlannedWrite(u, s);
    IdStored(RenameIds(u, f), a.tree, []);
    assert s.cmd.path != [];
    assert Wrote(u, s.cmd.path, f, a, Buffered(PlanOf(u, s.cmd).op, s.minted, s.bytes), After(u, s), e);
  }

  lemma ReplaceStep(v: PathView, tx: Tx, log: seq<Step>, e: nat)
    requires log != [] && Allocated(tx.tree, log) && Records(ViewOf(v, log[..|log| - 1]), log[|log| - 1])
    requires Superseding(Kept(v, log[..|log| - 1]).0, PlanOf(ViewOf(v, log[..|log| - 1]), log[|log| - 1].cmd).op)
    requires SameTables(v, tx, log[..|log| - 1], Flush(tx, Kept(v, log[..|log| - 1]), e),
             Eager(v, tx, log[..|log| - 1]), e)
    requires EndsInWrite(tx, log[..|log| - 1], Kept(v, log[..|log| - 1]), ViewOf(v, log[..|log| - 1]), e)
    ensures SameTables(v, tx, log, Flush(tx, Kept(v, log), e), Eager(v, tx, log), e)
    ensures EndsInWrite(tx, log, Kept(v, log), ViewOf(v, log), e)
  {
    hide InSync, PlanOf, Records, Allocated, After, ReplayOne, EagerOne, Live, Uses, Kept, Flush, Reals, Elems,
         RenameIds, Wrote;
    hide NewIds, KeepsIds;
    var n := |log| - 1;
    var s, w, prior := log[n], ViewOf(v, log[..n]), Kept(v, log[..n]);
    PlansIt(w, s);
    KeptLast(v, log);
    FlushLast(tx, Kept(v, log), e);
    FlushLast(tx, prior, e);
    var r := Flush(tx, Front(prior), e);
    if r.Some? {
      var a, f, b, id := r.value.0, r.value.1, prior.0[|prior.0| - 1], prior.1[|prior.0| - 1];
      var u, p :| Wrote(u, p, f, a, b, w, e);
      UsesMore(tx, log, r.value);
      UsesNew(tx, log, r.value);
      OtherId(tx.tree, log, id, r.value.1, a.tree, b.minted);
      WriteMintsOne(w, s, u, p, f, a, b, e);
      var g := Eager(v, tx, log[..n]);
      ReplaceLast(u, p, f, a, b, id, w, s, if g.Some? then g.value.1 else a, e);
      UsesLast(tx, log, r.value, Flush(tx, Kept(v, log), e).value);
      LiveVersion(a, e);
      StoredInReals(log);
    }
  }

  lemma LiveVersion(a: Tx, e: nat)
    ensures Live(a, e) ==> a.version >= e
  {
  }

  lemma WriteMintsOne(w: PathView, s: Step, u: PathView, p: Path, f: Remap, a: Tx, b: Buffered, e: nat)
    requires Records(w, s) && PlanOf(w, s.cmd).op.WriteOp? && Wrote(u, p, f, a, b, w, e)
    ensures |s.minted| == 1 == |s.stored| == |b.minted| && Live(a, e)
  {
  }

  lemma OtherId(t0: Tree, log: seq<Step>, id: seq<Id>, f: Remap, t: Tree, minted: seq<Id>)
    requires log != [] && Allocated(t0, log) && NewIds(f, t, minted, id)
    requires forall i :: i in id ==> i in Reals(log[..|log| - 1])
    ensures |id| == |minted|
    ensures |id| > 0 && |log[|log| - 1].stored| > 0 ==> log[|log| - 1].stored[0] != id[0]
  {
    var n := |log| - 1;
    TailDistinct(Reals(log[..n]), log[n].stored);
    if |id| > 0 && |log[n].stored| > 0 { assert id[0] in id && log[n].stored[0] in log[n].stored; }
  }

  /** For every scope and every allocation of ids, the flush of the journal the scope kept goes
      through exactly when running all its commands at once would; it leaves the same tables; and the
      scope's view, provisional ids renamed by the flush, is the eager view and the tree of those
      tables. */
  lemma {:induction false} BufferedRefinesEager(v: PathView, tx: Tx, log: seq<Step>, e: nat)
    requires Started(v, tx.tree) && tx.version == e && Legal(v, log) && Allocated(tx.tree, log)
    ensures SameTables(v, tx, log, Flush(tx, Kept(v, log), e), Eager(v, tx, log), e)
    ensures EndsInWrite(tx, log, Kept(v, log), ViewOf(v, log), e)
  {
    hide InSync, Records, Started, InStep, PlanOf;
    if log == [] {
      StartedInSync(v, tx.tree);
    } else {
      hide EndsInWrite, SameTables;
      var n := |log| - 1;
      LegalPrefix(v, log, n);
      AllocatedPrefix(tx.tree, log);
      BufferedRefinesEager(v, tx, log[..n], e);
      assert Records(ViewOf(v, log[..n]), log[n]);
      PlansIt(ViewOf(v, log[..n]), log[n]);
      if Superseding(Kept(v, log[..n]).0, PlanOf(ViewOf(v, log[..n]), log[n].cmd).op) {
        ReplaceStep(v, tx, log, e);
      } else {
        AppendStep(v, tx, log, e);
      }
    }
  }

  /** Dropping superseded entries changes neither whether the flush goes through nor the tables. */
  lemma CoalescingPreservesMeaning(v: PathView, tx: Tx, log: seq<Step>, e: nat)
    requires Started(v, tx.tree) && tx.version == e && Legal(v, log) && Allocated(tx.tree, log)
    ensures |JournalOf(v, log)| == |log|
    ensures var full, kept := ReplayAll(tx, map[], JournalOf(v, log), RealsOf(log), e), Flush(tx, Kept(v, log), e);
            && (full.Some? <==> kept.Some?)
            && (full.Some? ==>
                  && full.value.0.tree == kept.value.0.tree
                  && RenameIds(ViewOf(v, log), full.value.1) == RenameIds(ViewOf(v, log), kept.value.1))
  {
    hide InSync, Legal, Allocated, Started, ReplayAll, Eager, Kept, ViewOf, JournalOf;
    ReplayIsEager(v, tx, log, e);
    BufferedRefinesEager(v, tx, log, e);
  }
}
