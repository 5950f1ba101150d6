/** What a load returns. `loadAllPaths` names an entry with the empty name under the root like the root
    itself, and of two rows for one path the cache keeps the later, so such an entry takes the root's
    place. Without one a load is the tree under the stored root. */
module Loading {
  import opened Options
  import opened Tables
  import opened View
  import opened Commands
  import opened Agreement
  import opened CommandLaw
  import opened Runs

  /** The walk whose row ends up under `q`: the one through an empty name, if there is one. */
  function RowFor(t: Tree, q: Path): Path {
    if Lookup(t, [""] + q).Some? then [""] + q else q
  }

  ghost predicate LoadsAt(v: PathView, t: Tree, q: Path) {
    var row := Lookup(t, RowFor(t, q));
    && (q in v <==> (q == [] || q[0] != "") && row.Some?)
    && (q in v ==> row.value in t.inodes && v[q] == Entry(row.value, t.inodes[row.value].meta))
  }

  ghost predicate Loads(v: PathView, t: Tree) {
    forall q :: LoadsAt(v, t, q)
  }

  lemma NoEmptyName(t: Tree, q: Path)
    requires (t.root, "") !in t.dirents
    ensures Lookup(t, [""] + q).None? && (q != [] && q[0] == "" ==> Lookup(t, q).None?)
  {
    assert [""][..0] == [] && Lookup(t, [""]).None?;
    LookupUnder(t, [""], [""] + q);
    if q != [] && q[0] == "" {
      assert [""] <= q;
      LookupUnder(t, [""], q);
    }
  }

  /** Without an entry of that name, a load is the tree under the stored root. */
  lemma LoadsIsMirrors(v: PathView, t: Tree)
    requires (t.root, "") !in t.dirents
    ensures Loads(v, t) <==> Mirrors(v, t)
  {
    forall q ensures RowFor(t, q) == q && (q != [] && q[0] == "" ==> Lookup(t, q).None?) { NoEmptyName(t, q); }
    if Loads(v, t) {
      forall q: Path
        ensures (q in v <==> Lookup(t, q).Some?)
                && (q in v ==>
                   v[q].id == Lookup(t, q).value && v[q].id in t.inodes && v[q].meta == t.inodes[v[q].id].meta)
      {
        assert LoadsAt(v, t, q);
      }
    }
    if Mirrors(v, t) {
      forall q ensures LoadsAt(v, t, q) {}
    }
  }

  lemma LinkLookup(t: Tree, t2: Tree, id: Id, meta: Meta, q: Path)
    requires Consistent(t) && id !in t.inodes && (t.root, "") !in t.dirents
             && t2 == Link(AddInode(t, id, meta), (t.root, ""), id)
    ensures Lookup(t2, [""] + q) == if q == [] then Some(id) else None
    ensures q == [] || q[0] != "" ==> Lookup(t2, q) == Lookup(t, q)
  {
    AddInodeLedger(t, Base(t), id, meta);
    RootStored(t);
    assert [""][..0] == [];
    assert Lookup(t, [""]).None? && Lookup(t2, [""]) == Some(id);
    assert Childless(t2, id);
    LookupNewLeaf(t, t2, [""], id, [""] + q);
    if q != [] && q[0] != "" {
      assert DifferAt(t, t2, [""]);
      assert !([""] <= q);
      LookupOutside(t, Base(t), t2, [""], q);
    }
  }

  /** After a symbolic link at "/" a load has the link there, as the cache has. */
  lemma RootLinkLoads(v: PathView, tx: Tx, cmd: Cmd, ids: seq<Id>, e: nat)
    requires Ready(v, tx.tree, cmd, ids) && LinksRoot(cmd) && Run(PlanOf(v, cmd).op, tx, ids, e).Some?
    ensures Loads(Publish(v, cmd, ids), Run(PlanOf(v, cmd).op, tx, ids, e).value.tree)
  {
    LawRootLink(v, tx, cmd, ids, e);
    RootNameFree(v, tx.tree);
    var t, t2, meta := tx.tree, Run(PlanOf(v, cmd).op, tx, ids, e).value.tree, SymlinkMeta(cmd.target);
    var w := Publish(v, cmd, ids);
    hide PlanOf, Run, Publish, InStep;
    forall q ensures LoadsAt(w, t2, q) { RootLinkAt(v, t, ids[0], meta, q); }
  }

  lemma RootLinkAt(v: PathView, t: Tree, id: Id, meta: Meta, q: Path)
    requires InStep(v, t) && NormalView(v) && id !in t.inodes && (t.root, "") !in t.dirents
    ensures LoadsAt(v[[] := Entry(id, meta)], Link(AddInode(t, id, meta), (t.root, ""), id), q)
  {
    var t2 := Link(AddInode(t, id, meta), (t.root, ""), id);
    LinkLookup(t, t2, id, meta, q);
    if q in v { assert Normal(q); }
    if q != [] && q in v { IdStored(v, t, q); }
  }

  /** Whatever the command, a load after its transaction returns the view it published; and that is the
      tree of the stored root exactly unless the command is a symbolic link at "/". */
  lemma CommandLoads(v: PathView, tx: Tx, cmd: Cmd, ids: seq<Id>, e: nat)
    requires Ready(v, tx.tree, cmd, ids) && Run(PlanOf(v, cmd).op, tx, ids, e).Some?
    ensures var w, t := Publish(v, cmd, ids), Run(PlanOf(v, cmd).op, tx, ids, e).value.tree;
            Loads(w, t) && [] in w && (w[[]].id == t.root <==> !LinksRoot(cmd))
  {
    if LinksRoot(cmd) {
      RootLinkLoads(v, tx, cmd, ids, e);
      LawRootLink(v, tx, cmd, ids, e);
    } else {
      CommandAgrees(v, tx, cmd, ids, e);
      PublishNormal(v, tx.tree, cmd, ids);
      var w, t := Publish(v, cmd, ids), Run(PlanOf(v, cmd).op, tx, ids, e).value.tree;
      hide PlanOf, Run, Publish;
      RootNameFree(w, t);
      LoadsIsMirrors(w, t);
      assert Lookup(t, []) == Some(t.root);
    }
  }

  /** `symlink("/x", "/")` on an empty sandbox: nothing refuses it, its transaction commits, and cache and
      load then have the link at "/", while the stored root is the directory it was. */
  lemma LinkAtRoot()
    ensures var v, tx, cmd := map[[] := Entry(1, ROOT_META)], Tx(EMPTY_TREE, 0, 0), MakeSymlink("/x", []);
            && Ready(v, tx.tree, cmd, [2])
            && var r := Run(PlanOf(v, cmd).op, tx, [2], 0);
            && r.Some? && Publish(v, cmd, [2]) == map[[] := Entry(2, SymlinkMeta("/x"))]
            && Loads(Publish(v, cmd, [2]), r.value.tree) && r.value.tree.root == 1
  {
    var v, tx, cmd := map[[] := Entry(1, ROOT_META)], Tx(EMPTY_TREE, 0, 0), MakeSymlink("/x", []);
    EmptyTreeInStep();
    LawRootLink(v, tx, cmd, [2], 0);
    RootLinkLoads(v, tx, cmd, [2], 0);
  }
}
