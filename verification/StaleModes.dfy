/** The two unclean publications, at concrete inputs. In both, an inode has two names, an operation
    plans on one of them, and its mode is changed through the other before the operation publishes. */
module StaleModes {
  import opened Options
  import opened Tables
  import opened View
  import opened Commands
  import opened CommandLaw
  import opened Isolation
  import opened InFlight

  const SHARED := Entry(2, Meta(File, 420, 0, None, None))
  const CHANGED := Entry(2, Meta(File, 256, 0, None, None))
  const CHMOD := Flight(ChangeMode(["b"], 256), ChmodOp(2, 256), None, [], {["b"]})

  // ── A hard link ────────────────────────────────────────────────────────────

  const TWO_NAMES: PathView := map[[] := Entry(1, ROOT_META), ["a"] := SHARED, ["b"] := SHARED]
  const TWO_NAMES_LATER: PathView := map[[] := Entry(1, ROOT_META), ["a"] := CHANGED, ["b"] := CHANGED]
  const TABLES :=
    Tree(1, map[1 := Inode(ROOT_META, 1), 2 := Inode(SHARED.meta, 2)], map[(1, "a") := 2, (1, "b") := 2])
  const LINK := Flight(HardLink(["a"], ["c"]), LinkOp(2, (1, "c")), Some(SHARED), [], {["a"], ["c"]})

  lemma LinkPlans()
    ensures PlanOf(TWO_NAMES, LINK.cmd) == Does(LINK.op) && Planning(TWO_NAMES, LINK.cmd, LINK.held) == LINK
    ensures PlanOf(TWO_NAMES, CHMOD.cmd) == Does(CHMOD.op) && Planning(TWO_NAMES, CHMOD.cmd, CHMOD.held) == CHMOD
    ensures PlanOf(TWO_NAMES_LATER, LINK.cmd) == Does(LINK.op) && Disjoint(Roots(LINK.cmd), Roots(CHMOD.cmd))
  {
    assert ["a"][0] == "a" && ["b"][0] == "b" && ["c"][0] == "c";
    assert ParentOf(["c"]) == [];
  }

  lemma ChmodLands()
    ensures PlanOf(TWO_NAMES, CHMOD.cmd) == Does(CHMOD.op) && Landed(TWO_NAMES, CHMOD) == TWO_NAMES_LATER
  {
    LinkPlans();
    PatchLands(TWO_NAMES, CHMOD);
    hide Landed, PlanOf;
  }

  lemma LinkRuns(tx: Tx)
    requires tx == Tx(TABLES, 0, 0)
    ensures var r := Run(CHMOD.op, tx, [], 0);
            && r.Some? && r.value.tree.inodes == map[1 := Inode(ROOT_META, 1), 2 := Inode(CHANGED.meta, 2)]
            && var q := Run(LINK.op, Tx(r.value.tree, 1, 0), [], 1);
            && q.Some? && 2 in q.value.tree.inodes && q.value.tree.inodes[2].meta == CHANGED.meta
  {
    var r := Run(CHMOD.op, tx, [], 0);
    assert r.Some? && r.value.tree.dirents == TABLES.dirents;
    assert (1, "c") !in TABLES.dirents;
  }

  /** A hard link to `/a` plans; the mode is changed through `/b`, in the tables and in the cache; then
      the link commits and publishes the mode it had read. */
  lemma LinkPublishesStaleMode()
    ensures PlanOf(TWO_NAMES, LINK.cmd).Does? && Planning(TWO_NAMES, LINK.cmd, LINK.held) == LINK
    ensures PlanOf(TWO_NAMES, CHMOD.cmd) == Does(CHMOD.op) && Disjoint(Roots(LINK.cmd), Roots(CHMOD.cmd))
    ensures var r := Run(CHMOD.op, Tx(TABLES, 0, 0), [], 0);
            && r.Some? && var q := Run(LINK.op, Tx(r.value.tree, 1, 0), [], 1);
            && q.Some? && var later := Landed(TWO_NAMES, CHMOD);
            && PlanOf(later, LINK.cmd) == Does(LINK.op)
            && !Mirrors(Landed(later, LINK), q.value.tree)
  {
    LinkPlans();
    ChmodLands();
    LinkRuns(Tx(TABLES, 0, 0));
    OneChange(TWO_NAMES_LATER, Put(["c"], SHARED));
    var w := Landed(TWO_NAMES_LATER, LINK);
    assert w == TWO_NAMES_LATER[["c"] := SHARED];
    hide PlanOf, Run, Landed, Lookup;
    assert ["c"] in w && w[["c"]] == SHARED;
  }

  // ── A recursive copy ───────────────────────────────────────────────────────

  const FOLDER := Entry(3, ROOT_META)
  const IN_FOLDER: PathView :=
    map[[] := Entry(1, ROOT_META), ["d"] := FOLDER, ["d", "f"] := SHARED, ["b"] := SHARED]
  const IN_FOLDER_LATER: PathView :=
    map[[] := Entry(1, ROOT_META), ["d"] := FOLDER, ["d", "f"] := CHANGED, ["b"] := CHANGED]
  const FOLDER_TABLES :=
    Tree(1, map[1 := Inode(ROOT_META, 1), 2 := Inode(SHARED.meta, 2), 3 := Inode(ROOT_META, 1)],
         map[(1, "d") := 3, (3, "f") := 2, (1, "b") := 2])
  const ORDER: seq<Path> := [["d"], ["d", "f"]]
  const PLAN := [CpStep(["e"], Some(1), ROOT_META), CpStep(["e", "f"], None, SHARED.meta)]
  const COPY := Cp(["d"], ["e"], true, ORDER, map[])
  const COPY_SEEN := Cp(["d"], ["e"], true, ORDER, map[["d"] := 493, ["d", "f"] := 420])
  const COPIED := Flight(COPY_SEEN, CpTreeOp(PLAN), None, [4, 5], {["d"], ["e"]})

  lemma Destinations()
    ensures DestOf(["d"], ["e"], ["d"]) == ["e"] && DestOf(["d"], ["e"], ["d", "f"]) == ["e", "f"]
    ensures ParentOf(["e"]) == [] && ParentOf(["e", "f"]) == ["e"] && NameOf(["e"]) == "e" && NameOf(["e", "f"]) == "f"
  {
    assert ["d", "f"][1..] == ["f"] && ["e"] + ["f"] == ["e", "f"] && ["d"][1..] == [] && ["e"] + [] == ["e"];
    assert ["e", "f"][..1] == ["e"];
  }

  lemma Steps(v: PathView, modes: Modes, mode: int)
    requires v == IN_FOLDER || v == IN_FOLDER_LATER
    requires SeenMeta(v[["d", "f"]].meta, modes, ["d", "f"]) == SHARED.meta.(mode := mode)
    requires SeenMeta(ROOT_META, modes, ["d"]) == ROOT_META
    ensures forall i :: 0 <= i < |ORDER| ==> ORDER[i] in v && ["d"] <= ORDER[i]
    ensures CpPlan(v, ["d"], ["e"], ORDER, modes) == [PLAN[0], CpStep(["e", "f"], None, SHARED.meta.(mode := mode))]
  {
    Destinations();
    assert ["d"] <= ["d", "f"];
    assert ["e"][0] == "e" && ["d"][0] == "d" && ["b"][0] == "b" && ["e"] !in v;
  }

  lemma CopyPlans()
    ensures PlanOf(IN_FOLDER, COPY) == Does(COPIED.op) && Planning(IN_FOLDER, COPY, COPIED.held) == COPIED.(ids := [])
    ensures PlanOf(IN_FOLDER, CHMOD.cmd) == Does(CHMOD.op)
    ensures PlanOf(IN_FOLDER_LATER, COPY_SEEN) == Does(COPIED.op)
  {
    Destinations();
    assert ["e"][0] == "e" && ["d"][0] == "d" && ["b"][0] == "b";
    Steps(IN_FOLDER, map[], 420);
    Steps(IN_FOLDER_LATER, COPY_SEEN.modes, 420);
    hide CpPlan;
    assert forall p :: p in ORDER <==> p == ["d"] || p == ["d", "f"];
    assert Resolved(IN_FOLDER, COPY).modes == COPY_SEEN.modes;
  }

  lemma CopyApart()
    ensures Disjoint(Roots(COPY), Roots(CHMOD.cmd))
  {
    assert ["e"][0] == "e" && ["d"][0] == "d" && ["b"][0] == "b";
  }

  lemma FolderLands()
    ensures PlanOf(IN_FOLDER, CHMOD.cmd) == Does(CHMOD.op) && Landed(IN_FOLDER, CHMOD) == IN_FOLDER_LATER
  {
    CopyPlans();
    hide PlanOf;
    PatchLands(IN_FOLDER, CHMOD);
    hide Landed;
  }

  lemma CopyLands()
    ensures PlanOf(IN_FOLDER_LATER, COPY_SEEN) == Does(COPIED.op)
    ensures var w := Landed(IN_FOLDER_LATER, COPIED); ["e", "f"] in w && w[["e", "f"]] == Entry(5, CHANGED.meta)
  {
    CopyPlans();
    Steps(IN_FOLDER_LATER, map[], 256);
    hide PlanOf, CpPlan;
    var cs := Published(IN_FOLDER_LATER, COPIED);
    assert |cs| == 2 && cs[1] == Put(["e", "f"], Entry(5, CHANGED.meta));
    assert ApplyChanges(IN_FOLDER_LATER, cs) == ApplyChange(ApplyChanges(IN_FOLDER_LATER, cs[..1]), cs[1]);
  }

  lemma CopyRuns(t: Tree)
    requires t.inodes == map[1 := Inode(ROOT_META, 1), 2 := Inode(CHANGED.meta, 2), 3 := Inode(ROOT_META, 1)]
    requires t.dirents == FOLDER_TABLES.dirents
    ensures var q := Run(COPIED.op, Tx(t, 1, 0), [4, 5], 1);
            q.Some? && 5 in q.value.tree.inodes && q.value.tree.inodes[5].meta == SHARED.meta
  {
    Destinations();
    var tx := Tx(t, 1, 0);
    assert RunCpSteps(tx, [], [], 1) == Some((tx, map[]));
    assert PLAN[..1][..0] == [] && [4, 5][..1][..0] == [] && PLAN[..1][0] == PLAN[0];
    assert (1, "e") !in t.dirents;
    var a := RunCpStep(tx, map[], PLAN[0], 4, 1);
    assert a.Some? && a.value.1 == map[["e"] := 4] && a.value.0.tree.dirents == t.dirents[(1, "e") := 4];
    assert RunCpSteps(tx, PLAN[..1], [4, 5][..1], 1) == a;
    assert (4, "f") !in a.value.0.tree.dirents;
    var b := RunCpStep(a.value.0, a.value.1, PLAN[1], 5, 1);
    assert b.Some? && b.value.0.tree.inodes[5].meta == SHARED.meta;
    assert RunCpSteps(tx, PLAN, [4, 5], 1) == b;
  }

  lemma ChmodRuns()
    ensures var r := Run(CHMOD.op, Tx(FOLDER_TABLES, 0, 0), [], 0);
            && r.Some? && r.value.version == 1 && r.value.tree.dirents == FOLDER_TABLES.dirents
            && r.value.tree.inodes == map[1 := Inode(ROOT_META, 1), 2 := Inode(CHANGED.meta, 2), 3 :=
               Inode(ROOT_META, 1)]
  {
  }

  /** A copy of `/d` plans, the mode of `/d/f` is changed through `/b`, and the copy stores the mode it
      had planned and publishes the one it finds when it reads its sources again. */
  lemma CopyPublishesOtherMode()
    ensures PlanOf(IN_FOLDER, COPY).Does? && Planning(IN_FOLDER, COPY, COPIED.held) == COPIED.(ids := [])
    ensures PlanOf(IN_FOLDER, CHMOD.cmd) == Does(CHMOD.op) && Disjoint(Roots(COPY), Roots(CHMOD.cmd))
    ensures var r := Run(CHMOD.op, Tx(FOLDER_TABLES, 0, 0), [], 0);
            && r.Some? && var q := Run(COPIED.op, Tx(r.value.tree, 1, 0), [4, 5], 1);
            && q.Some? && var later := Landed(IN_FOLDER, CHMOD);
            && PlanOf(later, COPY_SEEN) == Does(COPIED.op)
            && !Mirrors(Landed(later, COPIED), q.value.tree)
  {
    CopyPlans();
    CopyApart();
    FolderLands();
    CopyLands();
    ChmodRuns();
    hide PlanOf, Landed, Lookup, Run, Planning, Disjoint;
    CopyRuns(Run(CHMOD.op, Tx(FOLDER_TABLES, 0, 0), [], 0).value.tree);
  }
}
