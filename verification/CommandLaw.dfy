/** The law of the namespace operations: whatever the command, if its transaction goes through, the
    view it publishes is the tree that hangs under the stored root. The one command that breaks it is a
    symbolic link at "/". */
module CommandLaw {
  import opened Options
  import opened Tables
  import opened View
  import opened Commands
  import opened Agreement
  import opened Subtrees

  /** Paths come out of `normalizeFsPath`, so no component is empty. */
  predicate Normal(p: Path) {
    forall i :: 0 <= i < |p| ==> p[i] != ""
  }

  ghost predicate NormalView(v: PathView) {
    forall p :: p in v ==> Normal(p)
  }

  predicate NormalCmd(cmd: Cmd) {
    match cmd
    case Mkdir(p, _) => Normal(p)
    case MkdirSegment(p, _, _) => Normal(p)
    case WriteFile(p, _, _, _) => Normal(p)
    case Rm(p, _, _) => Normal(p)
    case Cp(src, dest, _, _, _) => Normal(src) && Normal(dest)
    case Mv(src, dest, _, _) => Normal(src) && Normal(dest)
    case ChangeMode(p, _) => Normal(p)
    case MakeSymlink(_, p) => Normal(p)
    case HardLink(a, p) => Normal(a) && Normal(p)
  }

  predicate LinksRoot(cmd: Cmd) {
    cmd.MakeSymlink? && cmd.path == []
  }

  function Publish(v: PathView, cmd: Cmd, ids: seq<Id>): PathView
    requires PlanOf(v, cmd).Does? && |ids| == Mints(PlanOf(v, cmd).op)
  {
    ApplyChanges(v, Changes(v, cmd, ids))
  }

  ghost predicate Ready(v: PathView, t: Tree, cmd: Cmd, ids: seq<Id>) {
    && InStep(v, t) && NormalView(v) && NormalCmd(cmd) && Valid(v, cmd)
    && PlanOf(v, cmd).Does? && |ids| == Mints(PlanOf(v, cmd).op) && Fresh(t, ids)
  }

  lemma RootNameFree(v: PathView, t: Tree)
    requires InStep(v, t) && NormalView(v)
    ensures (t.root, "") !in t.dirents
  {
    assert !Normal([""]) by { assert [""][0] == ""; }
    assert [] + [""] == [""];
    if (t.root, "") in t.dirents { ChildInView(v, t, [], (t.root, "")); }
  }

  lemma OneChange(v: PathView, c: Change)
    ensures ApplyChanges(v, [c]) == ApplyChange(v, c)
  {
    assert [c][..0] == [];
    assert ApplyChanges(v, []) == v;
  }

  // ── mv ─────────────────────────────────────────────────────────────────────

  lemma {:induction false} MovePutsShape(v: PathView, src: Path, dest: Path, order: seq<Path>)
    requires forall i :: 0 <= i < |order| ==> order[i] in v && src <= order[i]
    ensures |MovePuts(v, src, dest, order)| == |order|
    ensures forall i :: 0 <= i < |order| ==>
              MovePuts(v, src, dest, order)[i] == Put(dest + order[i][|src|..], v[order[i]])
  {
    if order != [] { MovePutsShape(v, src, dest, order[..|order| - 1]); }
  }

  /** The published deletes and puts amount to moving the subtree over whatever was at `dest`. */
  lemma MovedView(v: PathView, src: Path, dest: Path, order: seq<Path>, hidden: seq<Path>)
    requires Lists(v, src, order) && Lists(v, dest, hidden) && !(src <= dest)
    ensures Moved(v - {dest}, src, dest, ApplyChanges(v,
            Deletes(order) + Deletes(hidden) + MovePuts(v, src, dest, order)))
  {
    var puts := MovePuts(v, src, dest, order);
    forall i | 0 <= i < |order| ensures order[i] in v && src <= order[i] { assert order[i] in order; }
    MovePutsShape(v, src, dest, order);
    ApplyChangesConcat(v, Deletes(order) + Deletes(hidden), puts);
    ApplyChangesConcat(v, Deletes(order), Deletes(hidden));
    ApplyDeletes(v, order);
    var u1 := ApplyChanges(v, Deletes(order));
    ApplyDeletes(u1, hidden);
    var u := ApplyChanges(u1, Deletes(hidden));
    var w := ApplyChanges(u, puts);
    assert forall p :: p in u <==> p in v && !(src <= p) && !(dest <= p);
    forall i, j | 0 <= i < j < |puts| ensures puts[i].path != puts[j].path {
      MovedTo(src, dest, order[i], puts[j].path);
      MovedTo(src, dest, order[j], puts[j].path);
    }
    forall p ensures MovedAt(v - {dest}, src, dest, w, p) {
      MovedPoint(v, src, dest, order, u, puts, p);
    }
    MovedPointwise(v - {dest}, src, dest, w);
  }

  ghost predicate MovedAt(v: PathView, src: Path, dest: Path, w: PathView, p: Path) {
    if dest <= p then
      var q := src + p[|dest|..]; (p in w <==> q in v) && (p in w ==> w[p] == v[q])
    else (p in w <==> p in v && !(src <= p)) && (p in w ==> w[p] == v[p])
  }

  lemma MovedPointwise(v: PathView, src: Path, dest: Path, w: PathView)
    requires forall p :: MovedAt(v, src, dest, w, p)
    ensures Moved(v, src, dest, w)
  {
    forall p: Path
      ensures dest <= p ==> (p in w <==> src + p[|dest|..] in v)
      ensures dest <= p && p in w ==> w[p] == v[src + p[|dest|..]]
      ensures !(dest <= p) ==> (p in w <==> p in v && !(src <= p))
      ensures !(dest <= p) && p in w ==> w[p] == v[p]
    {
      assert MovedAt(v, src, dest, w, p);
    }
  }

  lemma MovedTo(src: Path, dest: Path, a: Path, p: Path)
    requires src <= a && dest <= p
    ensures dest + a[|src|..] == p <==> a == src + p[|dest|..]
  {
    assert a == src + a[|src|..] && p == dest + p[|dest|..];
    assert (dest + a[|src|..])[|dest|..] == a[|src|..];
    assert (src + p[|dest|..])[|src|..] == p[|dest|..];
  }

  lemma MovedPoint(v: PathView, src: Path, dest: Path, order: seq<Path>, u: PathView, puts: seq<Change>, p: Path)
    requires Lists(v, src, order) && !(src <= dest) && |puts| == |order|
    requires forall i :: 0 <= i < |order| ==>
               order[i] in v && src <= order[i] && puts[i] == Put(dest + order[i][|src|..], v[order[i]])
    requires forall i, j :: 0 <= i < j < |puts| ==> puts[i].path != puts[j].path
    requires forall q :: q in u <==> q in v && !(src <= q) && !(dest <= q)
    requires forall q :: q in u ==> u[q] == v[q]
    ensures MovedAt(v - {dest}, src, dest, ApplyChanges(u, puts), p)
  {
    ApplyPuts(u, puts, p);
    if dest <= p {
      var q := src + p[|dest|..];
      forall i | 0 <= i < |order| ensures puts[i].path == p <==> order[i] == q { MovedTo(src, dest, order[i], p); }
      assert q in v ==> q in order;
    }
  }

  lemma SourceNotAbove(v: PathView, t: Tree, src: Path, dest: Path)
    requires InStep(v, t) && src in v && PlanMv(v, src, dest).Does?
    ensures !(src <= dest) && src != [] && dest != []
  {
    IdStored(v, t, []);
    if v[src].meta.kind != Directory && src <= dest {
      if src != dest {
        assert src <= ParentOf(dest);
        PrefixInView(v, t, Base(t), src, ParentOf(dest));
      }
    }
  }

  lemma AgreeMv(v: PathView, tx: Tx, src: Path, dest: Path, w: PathView, e: nat)
    requires InStep(v, tx.tree) && PlanMv(v, src, dest).Does? && Moved(v - {dest}, src, dest, w)
    requires MvComposite(tx, KeyOf(v, src), KeyOf(v, dest), e).Some?
    ensures InStep(w, MvComposite(tx, KeyOf(v, src), KeyOf(v, dest), e).value.tree)
  {
    hide WellFormed, Mirrors, Moved, DropComposite;
    var t := tx.tree;
    SourceNotAbove(v, t, src, dest);
    StoredParent(v, t, src);
    if dest in v {
      AgreeRm(v, t, dest);
      assert ParentOf(src) != dest || HasChild(v, dest);
      var t1 := DropComposite(Unlink(t, KeyOf(v, dest)), v[dest].id);
      assert KeyOf(v - {dest}, src) == KeyOf(v, src) && KeyOf(v - {dest}, dest) == KeyOf(v, dest);
      AgreeRename(v - {dest}, t1, src, dest, w);
    } else {
      assert v - {dest} == v;
      FreePath(v, t, dest);
      AgreeRename(v, t, src, dest, w);
    }
  }

  lemma FreePath(v: PathView, t: Tree, at: Path)
    requires InStep(v, t) && at != [] && at !in v && ParentOf(at) in v
    ensures KeyOf(v, at) !in t.dirents
  {
    assert Lookup(t, at).None?;
  }

  // ── The law ────────────────────────────────────────────────────────────────

  ghost predicate Publishes(v: PathView, tx: Tx, cmd: Cmd, ids: seq<Id>, e: nat)
    requires Ready(v, tx.tree, cmd, ids)
  {
    var r := Run(PlanOf(v, cmd).op, tx, ids, e);
    r.Some? ==> InStep(Publish(v, cmd, ids), r.value.tree)
  }

  /** An entry cannot be created where there is one. */
  lemma SlotTaken(v: PathView, tx: Tx, at: Path, meta: Meta, id: Id, e: nat)
    requires InStep(v, tx.tree) && at in v && at != [] && ParentOf(at) in v
    ensures Run(CreateOp(KeyOf(v, at), meta), tx, [id], e).None?
  {
    hide WellFormed, Mirrors;
    IdStored(v, tx.tree, ParentOf(at));
    ParentInView(v, tx.tree, Base(tx.tree), at);
    assert KeyOf(v, at) in AddInode(tx.tree, id, meta).dirents;
  }

  lemma LawMkdir(v: PathView, tx: Tx, cmd: Cmd, ids: seq<Id>, e: nat)
    requires Ready(v, tx.tree, cmd, ids) && (cmd.Mkdir? || cmd.MkdirSegment?)
    ensures Publishes(v, tx, cmd, ids, e)
  {
    hide WellFormed, Mirrors;
    IdStored(v, tx.tree, cmd.path);
    IdStored(v, tx.tree, []);
    var meta := Meta(Directory, cmd.mode, 0, None, None);
    if cmd.path in v {
      SlotTaken(v, tx, cmd.path, meta, ids[0], e);
    } else {
      AgreeCreate(v, tx.tree, cmd.path, meta, ids[0]);
      OneChange(v, Put(cmd.path, Entry(ids[0], meta)));
    }
  }

  lemma LawSymlink(v: PathView, tx: Tx, cmd: Cmd, ids: seq<Id>, e: nat)
    requires Ready(v, tx.tree, cmd, ids) && cmd.MakeSymlink? && cmd.path != []
    ensures Publishes(v, tx, cmd, ids, e)
  {
    hide WellFormed, Mirrors;
    IdStored(v, tx.tree, ParentOf(cmd.path));
    if cmd.path in v {
      SlotTaken(v, tx, cmd.path, SymlinkMeta(cmd.target), ids[0], e);
    } else {
      AgreeCreate(v, tx.tree, cmd.path, SymlinkMeta(cmd.target), ids[0]);
      OneChange(v, Put(cmd.path, Entry(ids[0], SymlinkMeta(cmd.target))));
    }
  }

  lemma LawWrite(v: PathView, tx: Tx, cmd: Cmd, ids: seq<Id>, e: nat)
    requires Ready(v, tx.tree, cmd, ids) && cmd.WriteFile?
    ensures Publishes(v, tx, cmd, ids, e)
  {
    hide WellFormed, Mirrors;
    IdStored(v, tx.tree, []);
    LawOverwrite(v, tx, cmd.path, WriteMeta(v, cmd), ids[0], e);
    OneChange(v, Put(cmd.path, Entry(ids[0], WriteMeta(v, cmd))));
  }

  /** A file put at a path that holds no directory: by the composite, and by the three statements. */
  lemma LawOverwrite(v: PathView, tx: Tx, at: Path, meta: Meta, id: Id, e: nat)
    requires InStep(v, tx.tree) && at != [] && RequireParent(v, at).None? && id !in tx.tree.inodes
    requires at in v ==> v[at].meta.kind != Directory
    ensures var r := WriteFileComposite(tx, KeyOf(v, at), meta, id, e);
            r.Some? ==> InStep(v[at := Entry(id, meta)], r.value.tree)
    ensures var r := Run(CpOp(KeyOf(v, at), meta), tx, [id], e);
            r.Some? ==> InStep(v[at := Entry(id, meta)], r.value.tree)
  {
    hide WellFormed, Mirrors, DropComposite, Drop;
    IdStored(v, tx.tree, ParentOf(at));
    if at in v {
      AgreeReplace(v, tx.tree, at, meta, id);
    } else {
      AgreeCreate(v, tx.tree, at, meta, id);
    }
  }

  lemma LawRm(v: PathView, tx: Tx, cmd: Cmd, ids: seq<Id>, e: nat)
    requires Ready(v, tx.tree, cmd, ids) && cmd.Rm?
    ensures Publishes(v, tx, cmd, ids, e)
  {
    hide WellFormed, Mirrors, DropComposite;
    IdStored(v, tx.tree, []);
    RootNameFree(v, tx.tree);
    if cmd.path != [] {
      if cmd.recursive && v[cmd.path].meta.kind == Directory {
        StoredParent(v, tx.tree, cmd.path);
        assert ids == [];
        if Run(PlanOf(v, cmd).op, tx, ids, e).Some? { AgreeRmTree(v, tx, cmd.path, cmd.order, e); }
      } else {
        AgreeRm(v, tx.tree, cmd.path);
        OneChange(v, Delete(cmd.path));
      }
    }
  }

  lemma LawCp(v: PathView, tx: Tx, cmd: Cmd, ids: seq<Id>, e: nat)
    requires Ready(v, tx.tree, cmd, ids) && cmd.Cp?
    ensures Publishes(v, tx, cmd, ids, e)
  {
    hide WellFormed, Mirrors;
    if v[cmd.src].meta.kind == Directory {
      if Run(PlanOf(v, cmd).op, tx, ids, e).Some? {
        AgreeCpTree(v, tx, cmd.src, cmd.dest, cmd.order, cmd.modes, ids, e);
      }
    } else {
      assert ids == [ids[0]];
      LawOverwrite(v, tx, cmd.dest, SeenMeta(v[cmd.src].meta, cmd.modes, cmd.src), ids[0], e);
      OneChange(v, Put(cmd.dest, Entry(ids[0], SeenMeta(v[cmd.src].meta, cmd.modes, cmd.src))));
    }
  }

  lemma LawMv(v: PathView, tx: Tx, cmd: Cmd, ids: seq<Id>, e: nat)
    requires Ready(v, tx.tree, cmd, ids) && cmd.Mv?
    ensures Publishes(v, tx, cmd, ids, e)
  {
    hide WellFormed, Mirrors, Moved;
    SourceNotAbove(v, tx.tree, cmd.src, cmd.dest);
    MovedView(v, cmd.src, cmd.dest, cmd.order, cmd.hidden);
    if Run(PlanOf(v, cmd).op, tx, ids, e).Some? { AgreeMv(v, tx, cmd.src, cmd.dest, Publish(v, cmd, ids), e); }
  }

  lemma LawChmodAndLink(v: PathView, tx: Tx, cmd: Cmd, ids: seq<Id>, e: nat)
    requires Ready(v, tx.tree, cmd, ids) && (cmd.ChangeMode? || cmd.HardLink?)
    ensures Publishes(v, tx, cmd, ids, e)
  {
    hide WellFormed, Mirrors;
    IdStored(v, tx.tree, []);
    if cmd.ChangeMode? {
      MirrorChmod(v, tx.tree, Base(tx.tree), v[cmd.path].id, cmd.mode);
      OneChange(v, PatchMode(v[cmd.path].id, cmd.mode));
    } else {
      AgreeLink(v, tx.tree, cmd.existing, cmd.path);
      OneChange(v, Put(cmd.path, v[cmd.existing]));
    }
  }

  /** A symbolic link at "/" stores an entry with the empty name and replaces the cached root; the stored
      root stays. */
  lemma LawRootLink(v: PathView, tx: Tx, cmd: Cmd, ids: seq<Id>, e: nat)
    requires Ready(v, tx.tree, cmd, ids) && LinksRoot(cmd)
    ensures var r := Run(PlanOf(v, cmd).op, tx, ids, e);
            && (r.Some? <==> FenceAndAdvance(tx, e).Some?)
            && (r.Some? ==>
                  && r.value.tree == Link(AddInode(tx.tree, ids[0], SymlinkMeta(cmd.target)), (tx.tree.root, ""),
                     ids[0])
                  && Publish(v, cmd, ids) == v[[] := Entry(ids[0], SymlinkMeta(cmd.target))]
                  && ids[0] != r.value.tree.root && !InStep(Publish(v, cmd, ids), r.value.tree))
  {
    hide WellFormed;
    IdStored(v, tx.tree, []);
    RootNameFree(v, tx.tree);
    RootStored(tx.tree);
    assert ParentOf([]) == [] && NameOf([]) == "";
    OneChange(v, Put([], Entry(ids[0], SymlinkMeta(cmd.target))));
    var r := Run(PlanOf(v, cmd).op, tx, ids, e);
    if r.Some? { assert Lookup(r.value.tree, []) == Some(tx.tree.root); }
  }

  lemma RootStored(t: Tree)
    requires Consistent(t)
    ensures t.root in t.inodes
  {
  }

  /** Whatever the command, a transaction that goes through leaves the published view equal to the tree
      under the stored root, exactly unless the command is a symbolic link at "/". */
  lemma CommandAgrees(v: PathView, tx: Tx, cmd: Cmd, ids: seq<Id>, e: nat)
    requires Ready(v, tx.tree, cmd, ids)
    ensures var r := Run(PlanOf(v, cmd).op, tx, ids, e);
            r.Some? ==> (InStep(Publish(v, cmd, ids), r.value.tree) <==> !LinksRoot(cmd))
  {
    hide Ready, InStep, Run, Publish;
    match cmd
    case Mkdir(_, _) => LawMkdir(v, tx, cmd, ids, e);
    case MkdirSegment(_, _, _) => LawMkdir(v, tx, cmd, ids, e);
    case WriteFile(_, _, _, _) => LawWrite(v, tx, cmd, ids, e);
    case Rm(_, _, _) => LawRm(v, tx, cmd, ids, e);
    case Cp(_, _, _, _, _) => LawCp(v, tx, cmd, ids, e);
    case Mv(_, _, _, _) => LawMv(v, tx, cmd, ids, e);
    case ChangeMode(_, _) => LawChmodAndLink(v, tx, cmd, ids, e);
    case HardLink(_, _) => LawChmodAndLink(v, tx, cmd, ids, e);
    case MakeSymlink(_, p) => if p == [] { LawRootLink(v, tx, cmd, ids, e); } else { LawSymlink(v, tx, cmd, ids, e); }
  }

  const ROOT_META := Meta(Directory, 493, 0, None, None)
  const EMPTY_TREE := Tree(1, map[1 := Inode(ROOT_META, 1)], map[])

  lemma EmptyTreeInStep()
    ensures InStep(map[[] := Entry(1, ROOT_META)], EMPTY_TREE)
  {
    assert Refs(EMPTY_TREE, 1) == {};
    assert forall p :: p != [] ==> Lookup(EMPTY_TREE, p).None?;
  }
}
