/** What `mkdir -p` reserves and what it creates. It reserves, when it is called, the highest path that
    is missing then; it creates, when its turn comes, every ancestor that is missing then. */
module Segments {
  import opened Options
  import opened Tables
  import opened View
  import opened Commands
  import opened Isolation
  import opened Closure
  import opened Flights
  import opened CommandLaw
  import opened Replay
  import Paths

  /** The path reserved on the cache `v`. */
  function RootAt(v: PathView, p: Path): (r: Path)
    ensures r <= p
    decreases |p|
  {
    if p == [] || ParentOf(p) in v then p else RootAt(v, ParentOf(p))
  }

  /** The loop in `mkdir`. */
  method ReservedRoot(v: PathView, path: Path) returns (root: Path)
    ensures root == RootAt(v, path)
  {
    root := path;
    while ParentOf(root) != root && ParentOf(root) !in v
      invariant RootAt(v, root) == RootAt(v, path)
      decreases |root|
    {
      root := ParentOf(root);
    }
  }

  /** The first segment of the path that is missing, which is the next one to be created. */
  function NextSegment(v: PathView, path: Path, n: nat): (r: Option<Path>)
    requires n <= |path|
    ensures r.Some? ==> r.value <= path && r.value !in v && |r.value| >= n
    decreases |path| - n
  {
    if path[..n] !in v then Some(path[..n])
    else if n == |path| then None
    else NextSegment(v, path, n + 1)
  }

  lemma {:induction false} FirstMissing(v: PathView, path: Path, n: nat, k: nat)
    requires n <= k <= |path| && path[..k] !in v
    ensures NextSegment(v, path, n).Some? && |NextSegment(v, path, n).value| <= k
    decreases k - n
  {
    if path[..n] in v { FirstMissing(v, path, n + 1, k); }
  }

  lemma {:induction false} RootIs(v: PathView, p: Path, q: Path)
    requires q < p
    ensures RootAt(v, p) <= q ==> q !in v
    ensures [] in v ==> ParentOf(RootAt(v, p)) in v
    decreases |p|
  {
    if ParentOf(p) !in v {
      var m := ParentOf(p);
      if q != m {
        assert q < m;
        RootIs(v, m, q);
      } else if m != [] {
        RootIs(v, m, []);
      }
    } else {
      assert !(p <= q);
    }
  }

  /** A segment lies outside the reservation exactly when an ancestor that was cached when the operation
      reserved is gone when it runs. */
  lemma OutsideExactly(before: PathView, now: PathView, path: Path)
    requires Closed(before) && Closed(now) && path != []
    ensures var next := NextSegment(now, path, 0);
            (next.Some? && !(RootAt(before, path) <= next.value)) <==> exists q :: q < path && q in before && q !in now
  {
    var root, next := RootAt(before, path), NextSegment(now, path, 0);
    RootIs(before, path, []);
    if next.Some? && !(root <= next.value) {
      var s := next.value;
      assert s == path[..|s|] && root == path[..|root|];
      assert s < root && s <= ParentOf(root);
      AncestorIn(before, ParentOf(root), s);
      assert s < path;
    }
    if q :| q < path && q in before && q !in now {
      RootIs(before, path, q);
      assert path[..|q|] == q;
      FirstMissing(now, path, 0, |q|);
      var s := next.value;
      assert s == path[..|s|] && |s| <= |q|;
      assert root <= s ==> root <= q;
    }
  }

  /** Either way the reservation is one that the flight of the segment may hold. */
  lemma SegmentHeld(before: PathView, now: PathView, path: Path, mode: int)
    requires NextSegment(now, path, 0).Some?
    ensures HeldFor(MkdirSegment(NextSegment(now, path, 0).value, mode, false), {RootAt(before, path)})
  {
    var root, s := RootAt(before, path), NextSegment(now, path, 0).value;
    assert s == path[..|s|] && root == path[..|root|];
    if root <= s {
      CoveredBy({root}, root, s);
    } else {
      assert s <= root;
    }
  }

  // ── Two of them ────────────────────────────────────────────────────────────

  const DIR := Meta(Directory, 493, 0, None, None)
  const WITH_A: PathView := map[[] := Entry(1, ROOT_META), ["a"] := Entry(2, DIR)]
  const WITHOUT_A: PathView := map[[] := Entry(1, ROOT_META)]
  const STORED_A := Tree(1, map[1 := Inode(ROOT_META, 1), 2 := Inode(DIR, 1)], map[(1, "a") := 2])
  const REMOVAL := Buffered(RmTreeOp(Some((1, "a")), [RmStep(2, None)]), [], 100)
  const CREATION := CreateOp((1, "a"), DIR)

  lemma RootsApart()
    ensures RootAt(WITH_A, ["a", "b", "c"]) == ["a", "b"] && RootAt(WITH_A, ["a", "x", "y"]) == ["a", "x"]
    ensures !Paths.Overlaps(Paths.Render(["a", "b"]), Paths.Render(["a", "x"]))
  {
    assert ["a", "b", "c"][..2] == ["a", "b"] && ["a", "b"][..1] == ["a"];
    assert ["a", "x", "y"][..2] == ["a", "x"] && ["a", "x"][..1] == ["a"];
    assert ["a", "b"] !in WITH_A && ["a", "x"] !in WITH_A by { assert |["a", "b"]| == 2 && |["a", "x"]| == 2; }
    assert ["a", "b"][1] == "b" && ["a", "x"][1] == "x";
    Paths.OverlapIsPrefix(["a", "b"], ["a", "x"]);
  }

  lemma BothCreate()
    ensures NextSegment(WITHOUT_A, ["a", "b", "c"], 0) == Some(["a"])
            && NextSegment(WITHOUT_A, ["a", "x", "y"], 0) == Some(["a"])
    ensures PlanOf(WITHOUT_A, MkdirSegment(["a"], 493, false)) == Does(CREATION)
    ensures PlanOf(WITHOUT_A[["a"] := Entry(-1, DIR)], MkdirSegment(["a"], 493, false)) == Nothing
  {
    assert ["a", "b", "c"][..0] == [] && ["a", "b", "c"][..1] == ["a"];
    assert ["a", "x", "y"][..0] == [] && ["a", "x", "y"][..1] == ["a"];
    assert ParentOf(["a"]) == [] && NameOf(["a"]) == "a" && ["a"] !in WITHOUT_A;
  }

  lemma RemovalRuns(tx: Tx)
    requires tx == Tx(STORED_A, 0, 0)
    ensures var r := Run(REMOVAL.op, tx, [], 0);
            r.Some? && r.value.tree == Tree(1, map[1 := Inode(ROOT_META, 1)], map[])
                && r.value.version == r.value.local > 0
  {
    var d := DeleteDirent(tx, (1, "a"), 0).value;
    assert d.0.tree == Tree(1, STORED_A.inodes, map[]);
    var steps := [RmStep(2, None)];
    assert steps[..0] == [];
    assert RunRmSteps(d.0, steps[..0], 0) == Some(d.0);
    assert RunRmSteps(d.0, steps, 0) == RunRmStep(d.0, steps[0], 0);
  }

  lemma CreationRuns(tx: Tx, id: Id)
    requires tx.version == tx.local > 0 && 1 in tx.tree.inodes && 1 != id
    ensures Run(CREATION, tx, [id], 0).Some? <==> (1, "a") !in tx.tree.dirents
    ensures Run(CREATION, tx, [id], 0).Some? ==>
              var r := Run(CREATION, tx, [id], 0).value;
              (1, "a") in r.tree.dirents && 1 in r.tree.inodes && r.version == r.local > 0
  {
  }

  lemma ReplayStep(tx: Tx, journal: seq<Buffered>, stored: seq<seq<Id>>, b: Buffered, ids: seq<Id>, e: nat)
    requires |journal| == |stored|
    ensures ReplayAll(tx, map[], journal + [b], stored + [ids], e) ==
            match ReplayAll(tx, map[], journal, stored, e)
            case None => None
            case Some(r) => ReplayOne(r.0, r.1, b, ids, e)
  {
    assert (journal + [b])[..|journal|] == journal && (stored + [ids])[..|stored|] == stored;
  }

  lemma FirstReplays(x: Id)
    requires x > 2
    ensures var r := ReplayAll(Tx(STORED_A, 0, 0), map[], [REMOVAL] + [Buffered(CREATION, [-1], 100)], [[]] + [[x]], 0);
            && r.Some? && (1, "a") in r.value.0.tree.dirents && 1 in r.value.0.tree.inodes
            && r.value.0.version == r.value.0.local > 0 && 1 !in r.value.1
  {
    var tx, first := Tx(STORED_A, 0, 0), Buffered(CREATION, [-1], 100);
    RemovalRuns(tx);
    hide Run;
    var none: seq<Id> := [];
    ReplayStep(tx, [], [], REMOVAL, none, 0);
    assert [] + [REMOVAL] == [REMOVAL] && [] + [none] == [none];
    ReplayStep(tx, [REMOVAL], [none], first, [x], 0);
    var a := Run(REMOVAL.op, tx, [], 0).value;
    CreationRuns(a, x);
    Creates(a, map[], -1, x);
    Removes(tx);
  }

  lemma SecondFails(tx: Tx, f: map<Id, Id>, y: Id)
    requires (1, "a") in tx.tree.dirents && 1 in tx.tree.inodes && tx.version == tx.local > 0 && y > 2 && 1 !in f
    ensures ReplayOne(tx, f, Buffered(CREATION, [-2], 100), [y], 0).None?
  {
    CreationRuns(tx, y);
    Creates(tx, f, -2, y);
    hide Run, ReplayOne;
  }

  lemma ReplayFails(x: Id, y: Id)
    requires x > 2 && y > 2
    ensures var tx, first, second := Tx(STORED_A, 0, 0), Buffered(CREATION, [-1], 100), Buffered(CREATION, [-2], 100);
            && ReplayAll(tx, map[], [REMOVAL] + [first], [[]] + [[x]], 0).Some?
            && ReplayAll(tx, map[], [REMOVAL] + [first] + [second], [[]] + [[x]] + [[y]], 0).None?
  {
    var tx, first, second := Tx(STORED_A, 0, 0), Buffered(CREATION, [-1], 100), Buffered(CREATION, [-2], 100);
    FirstReplays(x);
    ReplayStep(tx, [REMOVAL] + [first], [[]] + [[x]], second, [y], 0);
    hide ReplayAll, ReplayOne;
    var r := ReplayAll(tx, map[], [REMOVAL] + [first], [[]] + [[x]], 0).value;
    SecondFails(r.0, r.1, y);
  }

  /** With `/a` there, a script issues `rm -r /a`, `mkdir -p /a/b/c` and `mkdir -p /a/x/y` together. The last
      two reserve paths that do not overlap, and wait for the removal. Then both find `/a` missing and
      record it; the flush takes the first and fails at the second, so the whole script is lost, although
      one after the other they would find nothing to do for `/a` the second time. */
  lemma TwoMkdirsLoseTheScope(x: Id, y: Id)
    requires x > 2 && y > 2 && x != y
    ensures RootAt(WITH_A, ["a", "b", "c"]) == ["a", "b"] && RootAt(WITH_A, ["a", "x", "y"]) == ["a", "x"]
    ensures !Paths.Overlaps(Paths.Render(["a", "b"]), Paths.Render(["a", "x"]))
    ensures NextSegment(WITHOUT_A, ["a", "b", "c"], 0) == Some(["a"])
            && NextSegment(WITHOUT_A, ["a", "x", "y"], 0) == Some(["a"])
    ensures PlanOf(WITHOUT_A, MkdirSegment(["a"], 493, false)) == Does(CREATION)
    ensures PlanOf(WITHOUT_A[["a"] := Entry(-1, DIR)], MkdirSegment(["a"], 493, false)) == Nothing
    ensures var tx, first, second := Tx(STORED_A, 0, 0), Buffered(CREATION, [-1], 100), Buffered(CREATION, [-2], 100);
            && ReplayAll(tx, map[], [REMOVAL] + [first], [[]] + [[x]], 0).Some?
            && ReplayAll(tx, map[], [REMOVAL] + [first] + [second], [[]] + [[x]] + [[y]], 0).None?
  {
    RootsApart();
    BothCreate();
    hide RootAt, NextSegment, PlanOf;
    ReplayFails(x, y);
    hide ReplayAll;
  }

  lemma Removes(tx: Tx)
    ensures ReplayOne(tx, map[], REMOVAL, [], 0) ==
            match Run(REMOVAL.op, tx, [], 0) case None => None case Some(r) => Some((r, map[]))
  {
  }

  lemma Creates(tx: Tx, f: map<Id, Id>, minted: Id, id: Id)
    requires 1 !in f
    ensures ReplayOne(tx, f, Buffered(CREATION, [minted], 100), [id], 0) ==
            match Run(CREATION, tx, [id], 0) case None => None case Some(r) => Some((r, Bind(f, [minted], [id])))
  {
  }
}
