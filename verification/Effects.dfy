/** What each command leaves behind, in its own arguments: which paths appear, disappear or change, and with
    what data. And what it is refused for. */
module Effects {
  import opened Options
  import opened Tables
  import opened View
  import opened Commands
  import opened Agreement
  import opened Subtrees
  import opened CommandLaw
  import opened Closure
  import Paths

  /** Nothing but `p` differs. */
  ghost predicate OnlyAt(v: PathView, w: PathView, p: Path) {
    forall q :: q != p ==> (q in w <==> q in v) && (q in v ==> w[q] == v[q])
  }

  /** A new inode stands at `p`, with this data. */
  ghost predicate PutsAt(v: PathView, t: Tree, w: PathView, p: Path, meta: Meta) {
    OnlyAt(v, w, p) && p in w && w[p].id !in t.inodes && w[p].meta == meta
  }

  /** The data of a copy: everything of the source, with the mode it had when the copy read it. */
  predicate Copied(source: Meta, copy: Meta, modes: Modes, p: Path) {
    && copy.kind == source.kind && copy.size == source.size && copy.sha == source.sha && copy.target == source.target
    && copy.mode == if p in modes then modes[p] else source.mode
  }

  /** `q` is the place of a copied path. */
  ghost predicate IsImage(v: PathView, src: Path, dest: Path, q: Path) {
    exists p :: p in v && src <= p && q == DestOf(src, dest, p)
  }

  ghost predicate CopiesTree(v: PathView, t: Tree, src: Path, dest: Path, modes: Modes, w: PathView) {
    && (forall p :: p in v && src <= p ==>
          var q := DestOf(src, dest, p);
          q in w && w[q].id !in t.inodes && Copied(v[p].meta, w[q].meta, modes, p))
    && (forall p, q :: p in v && q in v && src <= p && src <= q && p != q ==>
          DestOf(src, dest, p) != DestOf(src, dest, q) && w[DestOf(src, dest, p)].id != w[DestOf(src, dest, q)].id)
    && (forall q :: !IsImage(v, src, dest, q) ==> (q in w <==> q in v) && (q in v ==> w[q] == v[q]))
  }

  /** The subtree at `src` is at `dest`, whatever was at `dest` before is gone, and the rest is as it was. */
  ghost predicate MovesTree(v: PathView, src: Path, dest: Path, w: PathView) {
    && (forall p :: dest <= p ==> (p in w <==> src + p[|dest|..] in v && src + p[|dest|..] != dest))
    && (forall p :: p in w && dest <= p ==> w[p] == v[src + p[|dest|..]])
    && (forall p :: !(dest <= p) ==> (p in w <==> p in v && !(src <= p)))
    && (forall p :: p in w && !(dest <= p) ==> w[p] == v[p])
  }

  ghost predicate Leaves(v: PathView, t: Tree, cmd: Cmd, w: PathView) {
    match cmd
    case Mkdir(p, mode) => PutsAt(v, t, w, p, Meta(Directory, mode, 0, None, None))
    case MkdirSegment(p, mode, _) => PutsAt(v, t, w, p, Meta(Directory, mode, 0, None, None))
    case WriteFile(p, mode, size, sha) =>
      // The mode asked for, or the one the file had, or that of a new file.
      var m := if mode.Some? then mode.value
               else if p in v && v[p].meta.kind == File then v[p].meta.mode else 420;
      PutsAt(v, t, w, p, Meta(File, m, size, Some(sha), None))
    case MakeSymlink(target, p) => PutsAt(v, t, w, p, Meta(Symlink, 511, |target|, None, Some(target)))
    case HardLink(existing, p) => OnlyAt(v, w, p) && existing in v && p in w && w[p] == v[existing]
    case ChangeMode(p, mode) =>
      && w.Keys == v.Keys && p in v
      && forall q :: q in v ==> w[q] == if v[q].id == v[p].id then v[q].(meta := v[q].meta.(mode := mode)) else v[q]
    case Rm(p, _, _) =>
      && (forall q :: q in w <==> q in v && !(p <= q)) && (forall q :: q in w ==> w[q] == v[q])
    case Mv(src, dest, _, _) => MovesTree(v, src, dest, w)
    case Cp(src, dest, _, _, modes) =>
      src in v && if v[src].meta.kind == Directory then CopiesTree(v, t, src, dest, modes, w)
      else OnlyAt(v, w, dest) && dest in w && w[dest].id !in t.inodes && Copied(v[src].meta, w[dest].meta, modes, src)
  }

  // ── Each command ───────────────────────────────────────────────────────────

  lemma PutLeaves(v: PathView, t: Tree, p: Path, id: Id, meta: Meta)
    requires id !in t.inodes
    ensures PutsAt(v, t, ApplyChanges(v, [Put(p, Entry(id, meta))]), p, meta)
  {
    OneChange(v, Put(p, Entry(id, meta)));
  }

  lemma SimpleLeaves(v: PathView, t: Tree, cmd: Cmd, ids: seq<Id>)
    requires Ready(v, t, cmd, ids) && !cmd.Rm? && !cmd.Mv? && !cmd.Cp?
    ensures Leaves(v, t, cmd, Publish(v, cmd, ids))
  {
    hide InStep, NormalView;
    match cmd
    case Mkdir(p, mode) => PutLeaves(v, t, p, ids[0], Meta(Directory, mode, 0, None, None));
    case MkdirSegment(p, mode, _) => PutLeaves(v, t, p, ids[0], Meta(Directory, mode, 0, None, None));
    case WriteFile(p, _, _, _) => PutLeaves(v, t, p, ids[0], WriteMeta(v, cmd));
    case MakeSymlink(target, p) => PutLeaves(v, t, p, ids[0], SymlinkMeta(target));
    case HardLink(existing, p) => OneChange(v, Put(p, v[existing]));
    case ChangeMode(p, mode) => OneChange(v, PatchMode(v[p].id, mode));
  }

  lemma RmLeaves(v: PathView, t: Tree, cmd: Cmd, ids: seq<Id>)
    requires Ready(v, t, cmd, ids) && cmd.Rm?
    ensures Leaves(v, t, cmd, Publish(v, cmd, ids))
  {
    var p := cmd.path;
    if cmd.recursive && v[p].meta.kind == Directory {
      ApplyDeletes(v, cmd.order);
      assert forall q :: q in cmd.order <==> q in v && p <= q;
    } else {
      OneChange(v, Delete(p));
      LeafPrune(v, t, Base(t), p);
      assert v - {p} == Prune(v, p);
    }
  }

  lemma MvLeaves(v: PathView, t: Tree, cmd: Cmd, ids: seq<Id>)
    requires Ready(v, t, cmd, ids) && cmd.Mv?
    ensures Leaves(v, t, cmd, Publish(v, cmd, ids))
  {
    hide WellFormed, Mirrors, Moved;
    SourceNotAbove(v, t, cmd.src, cmd.dest);
    assert ApplyChanges(v, Changes(v, cmd, ids)) == Publish(v, cmd, ids);
    MovedView(v, cmd.src, cmd.dest, cmd.order, cmd.hidden);
    hide Publish, Valid, PlanOf, Moved, MovesTree;
    MovedIs(v, cmd.src, cmd.dest, Publish(v, cmd, ids));
  }

  lemma MovedIs(v: PathView, src: Path, dest: Path, w: PathView)
    requires Moved(v - {dest}, src, dest, w)
    ensures MovesTree(v, src, dest, w)
  {
  }

  ghost predicate CopySetup(v: PathView, src: Path, dest: Path, order: seq<Path>, ids: seq<Id>) {
    && NormalView(v) && dest != [] && Lists(v, src, order) && |ids| == |order|
    && forall k :: 0 <= k < |order| ==> order[k] in v && src <= order[k]
  }

  lemma CopyDistinct(v: PathView, src: Path, dest: Path, order: seq<Path>, ids: seq<Id>, i: nat, j: nat)
    requires CopySetup(v, src, dest, order, ids) && i < j < |order|
    ensures DestOf(src, dest, order[i]) != DestOf(src, dest, order[j])
  {
    if DestOf(src, dest, order[i]) == DestOf(src, dest, order[j]) { DestInjective(src, dest, order[i], order[j]); }
  }

  /** One put for each copied path, no two at the same place. */
  lemma CopyPutsAt(v: PathView, src: Path, dest: Path, order: seq<Path>, modes: Modes, ids: seq<Id>, q: Path)
    requires CopySetup(v, src, dest, order, ids)
    ensures var w := ApplyChanges(v, CopyPuts(CpPlan(v, src, dest, order, modes), ids));
            && (forall i :: 0 <= i < |order| && DestOf(src, dest, order[i]) == q ==>
                  q in w && w[q] == Entry(ids[i], SeenMeta(v[order[i]].meta, modes, order[i])))
            && ((forall i :: 0 <= i < |order| ==> DestOf(src, dest, order[i]) != q) ==>
                  (q in w <==> q in v) && (q in v ==> w[q] == v[q]))
  {
    var cs := CopyPuts(CpPlan(v, src, dest, order, modes), ids);
    hide Lists, NormalView, DestOf, SeenMeta;
    forall i | 0 <= i < |order|
      ensures cs[i] == Put(DestOf(src, dest, order[i]), Entry(ids[i], SeenMeta(v[order[i]].meta, modes, order[i]))) {}
    forall i, j | 0 <= i < j < |cs| ensures cs[i].path != cs[j].path { CopyDistinct(v, src, dest, order, ids, i, j); }
    hide ApplyChanges, CopyPuts, CpPlan;
    ApplyPuts(v, cs, q);
  }

  lemma SeenIsCopied(m: Meta, modes: Modes, p: Path)
    ensures Copied(m, SeenMeta(m, modes, p), modes, p)
  {
  }

  lemma CopyOne(v: PathView, t: Tree, src: Path, dest: Path, order: seq<Path>, modes: Modes, ids: seq<Id>, p: Path)
    requires CopySetup(v, src, dest, order, ids) && Fresh(t, ids) && p in v && src <= p
    ensures var q, w := DestOf(src, dest, p), ApplyChanges(v, CopyPuts(CpPlan(v, src, dest, order, modes), ids));
            q in w && w[q].id !in t.inodes && Copied(v[p].meta, w[q].meta, modes, p)
  {
    var i := IndexOf(v, src, order, p);
    hide DestOf, ApplyChanges, CpPlan, CopyPuts, SeenMeta, Lists, NormalView, Copied;
    CopyPutsAt(v, src, dest, order, modes, ids, DestOf(src, dest, p));
    SeenIsCopied(v[p].meta, modes, p);
  }

  lemma CopyTwo(v: PathView, t: Tree, src: Path, dest: Path, order: seq<Path>, modes: Modes, ids: seq<Id>, p: Path,
                q: Path)
    requires CopySetup(v, src, dest, order, ids) && Fresh(t, ids) && p in v && q in v && src <= p && src <= q && p != q
    ensures var w := ApplyChanges(v, CopyPuts(CpPlan(v, src, dest, order, modes), ids));
            var a, b := DestOf(src, dest, p), DestOf(src, dest, q);
            a in w && b in w && a != b && w[a].id != w[b].id
  {
    var i := IndexOf(v, src, order, p);
    var j := IndexOf(v, src, order, q);
    if i < j { CopyDistinct(v, src, dest, order, ids, i, j); } else { CopyDistinct(v, src, dest, order, ids, j, i); }
    hide DestOf, ApplyChanges, CpPlan, CopyPuts, SeenMeta, Lists, NormalView;
    CopyPutsAt(v, src, dest, order, modes, ids, DestOf(src, dest, p));
    CopyPutsAt(v, src, dest, order, modes, ids, DestOf(src, dest, q));
  }

  lemma TreeLeaves(v: PathView, t: Tree, src: Path, dest: Path, order: seq<Path>, modes: Modes, ids: seq<Id>)
    requires CopySetup(v, src, dest, order, ids) && Fresh(t, ids)
    ensures CopiesTree(v, t, src, dest, modes, ApplyChanges(v, CopyPuts(CpPlan(v, src, dest, order, modes), ids)))
  {
    hide DestOf, ApplyChanges, CpPlan, CopyPuts, SeenMeta, Lists, NormalView, Copied, Fresh;
    var w := ApplyChanges(v, CopyPuts(CpPlan(v, src, dest, order, modes), ids));
    forall p | p in v && src <= p
      ensures var q := DestOf(src, dest, p);
              q in w && w[q].id !in t.inodes && Copied(v[p].meta, w[q].meta, modes, p)
    {
      CopyOne(v, t, src, dest, order, modes, ids, p);
    }
    forall p, q | p in v && q in v && src <= p && src <= q && p != q
      ensures DestOf(src, dest, p) != DestOf(src, dest, q)
              && w[DestOf(src, dest, p)].id != w[DestOf(src, dest, q)].id
    {
      CopyTwo(v, t, src, dest, order, modes, ids, p, q);
    }
    forall q | !IsImage(v, src, dest, q) ensures (q in w <==> q in v) && (q in v ==> w[q] == v[q]) {
      CopyPutsAt(v, src, dest, order, modes, ids, q);
    }
  }

  lemma CpLeaves(v: PathView, t: Tree, cmd: Cmd, ids: seq<Id>)
    requires Ready(v, t, cmd, ids) && cmd.Cp?
    ensures Leaves(v, t, cmd, Publish(v, cmd, ids))
  {
    hide InStep;
    if v[cmd.src].meta.kind == Directory {
      forall k | 0 <= k < |cmd.order| ensures cmd.order[k] in v && cmd.src <= cmd.order[k] {
        assert cmd.order[k] in cmd.order;
      }
      TreeLeaves(v, t, cmd.src, cmd.dest, cmd.order, cmd.modes, ids);
    } else {
      PutLeaves(v, t, cmd.dest, ids[0], SeenMeta(v[cmd.src].meta, cmd.modes, cmd.src));
    }
  }

  /** After a command that goes through on a mirrored view, the published view is what the command says, and so are
      the tables: their tree is that view. */
  lemma LeavesExactly(v: PathView, tx: Tx, cmd: Cmd, ids: seq<Id>, e: nat)
    requires Ready(v, tx.tree, cmd, ids) && !LinksRoot(cmd) && Run(PlanOf(v, cmd).op, tx, ids, e).Some?
    ensures Leaves(v, tx.tree, cmd, Publish(v, cmd, ids))
    ensures forall w :: Mirrors(w, Run(PlanOf(v, cmd).op, tx, ids, e).value.tree) <==> w == Publish(v, cmd, ids)
  {
    var w, t := Publish(v, cmd, ids), Run(PlanOf(v, cmd).op, tx, ids, e).value.tree;
    CommandAgrees(v, tx, cmd, ids, e);
    forall u | Mirrors(u, t) ensures u == w { MirrorUnique(u, w, t); }
    hide Leaves, Publish, Run, PlanOf, InStep, Mirrors;
    match cmd
    case Rm(_, _, _) => RmLeaves(v, tx.tree, cmd, ids);
    case Mv(_, _, _, _) => MvLeaves(v, tx.tree, cmd, ids);
    case Cp(_, _, _, _, _) => CpLeaves(v, tx.tree, cmd, ids);
    case _ => SimpleLeaves(v, tx.tree, cmd, ids);
  }

  /** The place of a copied path is the destination's string with what follows the source's string in the path's
      own. */
  lemma ImageIsAppended(src: Path, dest: Path, p: Path)
    requires src <= p && dest != []
    ensures |Paths.Render(src)| <= |Paths.Render(p)|
    ensures Paths.Render(DestOf(src, dest, p)) == Paths.Render(dest) + Paths.Render(p)[|Paths.Render(src)|..]
  {
    if src == [] && p != [] {
      GluedImage(dest, p);
    } else if src != [] {
      var rest := p[|src|..];
      assert p == src + rest;
      Paths.JoinedConcat(src, rest);
      Paths.JoinedConcat(dest, rest);
      hide Paths.Joined;
    } else {
      assert DestOf(src, dest, p) == dest && Paths.Render(p)[1..] == "";
    }
  }

  lemma GluedImage(dest: Path, p: Path)
    requires p != [] && dest != []
    ensures |Paths.Render(p)| >= 1 && Paths.Render(DestOf([], dest, p)) == Paths.Render(dest) + Paths.Render(p)[1..]
  {
    var front, name, first, rest := ParentOf(dest), NameOf(dest), p[0], p[1..];
    assert dest == front + [name] && p == [first] + rest;
    assert DestOf([], dest, p) == front + ([name + first] + rest);
    Paths.JoinedConcat(front, [name]);
    Paths.JoinedConcat(front, [name + first] + rest);
    JoinedOne(name);
    JoinedHead(name + first, rest);
    JoinedHead(first, rest);
    hide Paths.Joined, DestOf;
    Regroup(Paths.Joined(front), name, first, Paths.Joined(rest));
  }

  lemma Regroup(front: string, name: string, first: string, rest: string)
    ensures ("/" + (first + rest))[1..] == first + rest
    ensures front + ("/" + ((name + first) + rest)) == (front + ("/" + name)) + (first + rest)
  {
  }

  lemma JoinedHead(c: Name, rest: Path)
    ensures Paths.Joined([c] + rest) == "/" + (c + Paths.Joined(rest))
  {
    assert ([c] + rest)[1..] == rest;
  }

  lemma JoinedOne(c: Name)
    ensures Paths.Joined([c]) == "/" + c
  {
    assert [c][1..] == [];
  }

  // ── Refusals by the checks ─────────────────────────────────────────────────

  predicate IsDir(v: PathView, p: Path) {
    p in v && v[p].meta.kind == Directory
  }

  /** Nothing can be put at `p`: its parent is missing, or no directory. */
  predicate NoPlace(v: PathView, p: Path, error: Error) {
    !IsDir(v, ParentOf(p)) && error == if ParentOf(p) in v then ENOTDIR else ENOENT
  }

  predicate HasPlace(v: PathView, p: Path) {
    IsDir(v, ParentOf(p))
  }

  /** Why a command that creates one entry is refused. */
  predicate CannotCreate(v: PathView, cmd: Cmd, error: Error) {
    match cmd
    case Mkdir(p, _) => if p in v then error == EEXIST else NoPlace(v, p, error)
    case MkdirSegment(p, _, blind) => p != [] && (p !in v || blind) && NoPlace(v, p, error)
    case WriteFile(p, _, _, _) => if IsDir(v, p) then error == EISDIR else NoPlace(v, p, error)
    case MakeSymlink(_, p) => NoPlace(v, p, error)
    case HardLink(existing, p) =>
      if existing !in v then error == ENOENT
      else if IsDir(v, existing) then error == EPERM
      else if p in v then error == EEXIST else NoPlace(v, p, error)
    case _ => false
  }

  /** Why a command on what is there is refused, on a view without holes. */
  predicate CannotChange(v: PathView, cmd: Cmd, error: Error) {
    match cmd
    case ChangeMode(p, _) => p !in v && error == ENOENT
    case Rm(p, recursive, _) => CannotRemove(v, p, recursive, error)
    case Cp(src, dest, recursive, _, _) =>
      if dest == [] then error == EISDIR
      else if src !in v then error == ENOENT
      else if IsDir(v, src) then (if recursive then NoPlace(v, dest, error) else error == EISDIR)
      else if IsDir(v, dest) then error == EISDIR else NoPlace(v, dest, error)
    case Mv(src, dest, _, _) => CannotMove(v, src, dest, error)
    case _ => false
  }

  predicate CannotRemove(v: PathView, p: Path, recursive: bool, error: Error) {
    (p !in v && error == ENOENT) || (IsDir(v, p) && !recursive && HasChild(v, p) && error == ENOTEMPTY)
  }

  predicate CannotMove(v: PathView, src: Path, dest: Path, error: Error) {
    if src !in v then error == ENOENT
    else if !HasPlace(v, dest) then NoPlace(v, dest, error)
    else if IsDir(v, src) && src <= dest then error == EINVAL
    else if dest == [] then error == EISDIR
    else if dest !in v || v[dest].id == v[src].id then false
    else if IsDir(v, dest) && HasChild(v, dest) then error == ENOTEMPTY
    else if IsDir(v, dest) && !IsDir(v, src) then error == EISDIR
    else IsDir(v, src) && !IsDir(v, dest) && error == ENOTDIR
  }

  predicate SameInode(v: PathView, src: Path, dest: Path) {
    && src in v && dest in v && dest != [] && v[dest].id == v[src].id
    && !(IsDir(v, src) && src <= dest) && HasPlace(v, dest)
  }

  /** There is nothing to do: a segment that is there already, a move of an inode onto another name of its own. */
  predicate NothingToDo(v: PathView, cmd: Cmd) {
    || (cmd.MkdirSegment? && (cmd.path == [] || (cmd.path in v && !cmd.blind)))
    || (cmd.Mv? && SameInode(v, cmd.src, cmd.dest))
  }

  ghost predicate Outcome(v: PathView, cmd: Cmd, error: Error) {
    && (PlanOf(v, cmd) == Fails(error) <==> CannotCreate(v, cmd, error) || CannotChange(v, cmd, error))
    && (PlanOf(v, cmd) == Nothing <==> NothingToDo(v, cmd))
  }

  lemma RemovalPlanned(v: PathView, p: Path, recursive: bool, order: seq<Path>, error: Error)
    requires (p in v ==> ParentOf(p) in v) && forall i :: 0 <= i < |order| ==> order[i] in v
    ensures PlanRm(v, p, recursive, order) == Fails(error) <==> CannotRemove(v, p, recursive, error)
    ensures PlanRm(v, p, recursive, order) != Nothing
  {
    hide HasChild, RmPlan, KeyOf, EntryKey;
  }

  lemma RmOutcome(v: PathView, cmd: Cmd, error: Error)
    requires Closed(v) && Valid(v, cmd) && cmd.Rm?
    ensures Outcome(v, cmd, error)
  {
    forall i | 0 <= i < |cmd.order| ensures cmd.order[i] in v { assert cmd.order[i] in cmd.order; }
    if cmd.path in v { assert Hangs(v, cmd.path); }
    hide Closed, Valid, PlanRm, CannotRemove;
    RemovalPlanned(v, cmd.path, cmd.recursive, cmd.order, error);
  }

  lemma CpOutcome(v: PathView, cmd: Cmd, error: Error)
    requires Valid(v, cmd) && NormalCmd(cmd) && cmd.Cp?
    ensures Outcome(v, cmd, error)
  {
    forall i | 0 <= i < |cmd.order| ensures cmd.order[i] in v && cmd.src <= cmd.order[i] {
      assert cmd.order[i] in cmd.order;
    }
    assert NameOf(cmd.dest) == "" <==> cmd.dest == [];
    hide Valid, CpPlan, NameOf, NormalCmd;
  }

  lemma MovePlanned(v: PathView, src: Path, dest: Path, error: Error)
    requires (src in v ==> ParentOf(src) in v) && (NameOf(dest) == "" <==> dest == [])
    ensures PlanMv(v, src, dest) == Fails(error) <==> CannotMove(v, src, dest, error)
    ensures PlanMv(v, src, dest) == Nothing <==> SameInode(v, src, dest)
  {
    hide HasChild, NameOf, KeyOf;
  }

  lemma MvOutcome(v: PathView, cmd: Cmd, error: Error)
    requires Closed(v) && NormalCmd(cmd) && cmd.Mv?
    ensures Outcome(v, cmd, error)
  {
    if cmd.src in v { assert Hangs(v, cmd.src); }
    assert NameOf(cmd.dest) == "" <==> cmd.dest == [];
    hide Closed, HasChild, NameOf, NormalCmd, CannotMove, SameInode, PlanMv;
    MovePlanned(v, cmd.src, cmd.dest, error);
  }

  /** On a view without holes a command is refused by its checks for these reasons and no others, and what is not
      refused is done unless there is nothing to do. */
  lemma RefusedExactly(v: PathView, cmd: Cmd, error: Error)
    requires Closed(v) && Valid(v, cmd) && NormalCmd(cmd)
    ensures PlanOf(v, cmd) == Fails(error) <==> CannotCreate(v, cmd, error) || CannotChange(v, cmd, error)
    ensures PlanOf(v, cmd) == Nothing <==> NothingToDo(v, cmd)
  {
    match cmd
    case Rm(_, _, _) => RmOutcome(v, cmd, error);
    case Cp(_, _, _, _, _) => CpOutcome(v, cmd, error);
    case Mv(_, _, _, _) => MvOutcome(v, cmd, error);
    case _ => hide Closed;
  }
}
