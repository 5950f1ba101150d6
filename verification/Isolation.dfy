/** What reservations protect. An operation plans against the view, then waits (a blob upload, the
    sandbox lock) while others commit and publish. If their reserved paths do not overlap, the plan it
    made is still the plan it would make, but for modes. What it then publishes is another matter. */
module Isolation {
  import opened Options
  import opened Tables
  import opened View
  import opened Commands
  import opened CommandLaw

  /** The paths an operation reserves. */
  function Roots(cmd: Cmd): set<Path> {
    match cmd
    case Mkdir(p, _) => {p}
    case MkdirSegment(p, _, _) => {p}
    case WriteFile(p, _, _, _) => {p}
    case Rm(p, _, _) => {p}
    case Cp(src, dest, _, _, _) => {src, dest}
    case Mv(src, dest, _, _) => {src, dest}
    case ChangeMode(p, _) => {p}
    case MakeSymlink(_, p) => {p}
    case HardLink(a, p) => {a, p}
  }

  ghost predicate Disjoint(a: set<Path>, b: set<Path>) {
    forall p, q :: p in a && q in b ==> !(p <= q) && !(q <= p)
  }

  ghost predicate Covers(roots: set<Path>, q: Path) {
    exists r :: r in roots && r <= q
  }

  ghost predicate SameAt(v: PathView, w: PathView, q: Path) {
    (q in w <==> q in v) && (q in v && q in w ==> w[q] == v[q])
  }

  /** Only paths at or below a root changed. */
  ghost predicate SameOutside(v: PathView, w: PathView, roots: set<Path>) {
    forall q :: !Covers(roots, q) ==> SameAt(v, w, q)
  }

  /** What a plan looks at: everything at or below its roots, and the roots' parents. */
  ghost predicate Consults(cmd: Cmd, q: Path) {
    Covers(Roots(cmd), q) || exists r :: r in Roots(cmd) && q == ParentOf(r)
  }

  // ── What a command touches ─────────────────────────────────────────────────

  ghost predicate Touches(c: Change, roots: set<Path>) {
    match c
    case Put(p, _) => Covers(roots, p)
    case Delete(p) => Covers(roots, p)
    case PatchMode(_, _) => false
  }

  lemma {:induction false} ChangesStayInside(v: PathView, cs: seq<Change>, roots: set<Path>)
    requires forall i :: 0 <= i < |cs| ==> Touches(cs[i], roots)
    ensures SameOutside(v, ApplyChanges(v, cs), roots)
  {
    if cs != [] { ChangesStayInside(v, cs[..|cs| - 1], roots); }
  }

  lemma CoveredBy(roots: set<Path>, r: Path, q: Path)
    requires r in roots && r <= q
    ensures Covers(roots, q)
  {
  }

  lemma ChangeInside(v: PathView, cmd: Cmd, ids: seq<Id>, i: nat)
    requires !cmd.ChangeMode? && Valid(v, cmd) && PlanOf(v, cmd).Does? && |ids| == Mints(PlanOf(v, cmd).op)
    requires i < |Changes(v, cmd, ids)|
    ensures Touches(Changes(v, cmd, ids)[i], Roots(cmd))
  {
    hide Covers;
    var c := Changes(v, cmd, ids)[i];
    match cmd
    case Rm(p, recursive, order) =>
      if recursive && v[p].meta.kind == Directory { assert order[i] in order; CoveredBy(Roots(cmd), p, order[i]); }
      else { CoveredBy(Roots(cmd), p, p); }
    case Cp(src, dest, _, order, _) =>
      if v[src].meta.kind != Directory { CoveredBy(Roots(cmd), dest, dest); }
      else if src == [] { CoveredBy(Roots(cmd), [], c.path); }
      else { CoveredBy(Roots(cmd), dest, c.path); }
    case Mv(_, _, _, _) => MoveInside(v, cmd, ids, i);
    case HardLink(_, p) => CoveredBy(Roots(cmd), p, p);
    case Mkdir(p, _) => CoveredBy(Roots(cmd), p, p);
    case MkdirSegment(p, _, _) => CoveredBy(Roots(cmd), p, p);
    case WriteFile(p, _, _, _) => CoveredBy(Roots(cmd), p, p);
    case MakeSymlink(_, p) => CoveredBy(Roots(cmd), p, p);
    case ChangeMode(_, _) =>
  }

  lemma MoveInside(v: PathView, cmd: Cmd, ids: seq<Id>, i: nat)
    requires cmd.Mv? && Valid(v, cmd) && PlanOf(v, cmd).Does? && |ids| == Mints(PlanOf(v, cmd).op)
    requires i < |Changes(v, cmd, ids)|
    ensures Touches(Changes(v, cmd, ids)[i], Roots(cmd))
  {
    var src, dest, order, hidden := cmd.src, cmd.dest, cmd.order, cmd.hidden;
    assert Changes(v, cmd, ids) == Deletes(order) + Deletes(hidden) + MovePuts(v, src, dest, order);
    assert Lists(v, src, order) && Lists(v, dest, hidden) && src in Roots(cmd) && dest in Roots(cmd);
    hide Changes, Valid, PlanOf, Roots;
    MoveInsideRoots(v, src, dest, order, hidden, Roots(cmd), i);
  }

  lemma MoveInsideRoots(v: PathView, src: Path, dest: Path, order: seq<Path>, hidden: seq<Path>, roots: set<Path>,
                        i: nat)
    requires Lists(v, src, order) && Lists(v, dest, hidden) && src in roots && dest in roots
    requires i < |Deletes(order) + Deletes(hidden) + MovePuts(v, src, dest, order)|
    ensures Touches((Deletes(order) + Deletes(hidden) + MovePuts(v, src, dest, order))[i], roots)
  {
    hide Covers, Touches, Lists, MovePuts, Deletes;
    if i < |order| {
      DeletesInside(v, src, order, roots, i);
    } else if i < |order| + |hidden| {
      DeletesInside(v, dest, hidden, roots, i - |order|);
    } else {
      PutsInside(v, src, dest, order, roots, i - |order| - |hidden|);
    }
  }

  lemma DeletesInside(v: PathView, at: Path, order: seq<Path>, roots: set<Path>, i: nat)
    requires Lists(v, at, order) && at in roots && i < |order|
    ensures Touches(Deletes(order)[i], roots)
  {
    assert order[i] in order;
    CoveredBy(roots, at, order[i]);
  }

  lemma PutsInside(v: PathView, src: Path, dest: Path, order: seq<Path>, roots: set<Path>, i: nat)
    requires Lists(v, src, order) && dest in roots && i < |MovePuts(v, src, dest, order)|
    ensures Touches(MovePuts(v, src, dest, order)[i], roots)
  {
    forall j | 0 <= j < |order| ensures order[j] in v && src <= order[j] { assert order[j] in order; }
    MovePutsShape(v, src, dest, order);
    CoveredBy(roots, dest, dest + order[i][|src|..]);
  }

  // ── What a plan depends on ─────────────────────────────────────────────────

  ghost predicate Agrees(v: PathView, w: PathView, cmd: Cmd) {
    forall q :: Consults(cmd, q) ==> SameAt(v, w, q)
  }

  lemma AgreesAt(v: PathView, w: PathView, cmd: Cmd, r: Path)
    requires Agrees(v, w, cmd) && r in Roots(cmd)
    ensures SameAt(v, w, r) && SameAt(v, w, ParentOf(r))
    ensures forall q :: r <= q ==> SameAt(v, w, q)
    ensures HasChild(w, r) <==> HasChild(v, r)
  {
    forall q | r <= q ensures SameAt(v, w, q) { CoveredBy(Roots(cmd), r, q); assert Consults(cmd, q); }
    assert Consults(cmd, ParentOf(r));
    SameChildren(v, w, r);
    forall q | r <= q ensures SameAt(w, v, q) { assert SameAt(v, w, q); }
    SameChildren(w, v, r);
  }

  lemma SameChildren(v: PathView, w: PathView, r: Path)
    requires forall q :: r <= q ==> SameAt(v, w, q)
    ensures HasChild(v, r) ==> HasChild(w, r)
  {
    if HasChild(v, r) {
      var q :| q in v && |q| == |r| + 1 && r <= q;
      assert SameAt(v, w, q);
    }
  }

  lemma SameRmPlan(v: PathView, w: PathView, p: Path, recursive: bool, order: seq<Path>)
    requires Lists(v, p, order) && forall q :: p <= q || q == ParentOf(p) ==> SameAt(v, w, q)
    requires HasChild(w, p) <==> HasChild(v, p)
    ensures PlanRm(w, p, recursive, order) == PlanRm(v, p, recursive, order)
  {
    forall i | 0 <= i < |order| ensures order[i] in v && p <= order[i] && SameAt(v, w, order[i]) {
      assert order[i] in order;
    }
    assert SameAt(v, w, p) && SameAt(v, w, ParentOf(p));
    if p in v {
      forall i | 0 <= i < |order| ensures EntryKey(w, order[i]) == EntryKey(v, order[i]) {
        ParentInside(p, order[i]);
        assert SameAt(v, w, ParentOf(order[i]));
      }
      assert RmPlan(w, p, order) == RmPlan(v, p, order);
    }
  }

  lemma ParentInside(p: Path, q: Path)
    requires p <= q
    ensures p <= ParentOf(q) || ParentOf(q) == ParentOf(p)
  {
    if |q| > |p| { assert ParentOf(q)[..|p|] == p; }
  }

  lemma SameCpPlan(v: PathView, w: PathView, src: Path, dest: Path, recursive: bool, order: seq<Path>, modes: Modes)
    requires Lists(v, src, order)
    requires forall q :: src <= q || dest <= q || q == ParentOf(dest) ==> SameAt(v, w, q)
    ensures PlanCp(w, src, dest, recursive, order, modes) == PlanCp(v, src, dest, recursive, order, modes)
  {
    forall i | 0 <= i < |order| ensures order[i] in v && src <= order[i] && SameAt(v, w, order[i]) {
      assert order[i] in order;
    }
    assert SameAt(v, w, src) && SameAt(v, w, dest) && SameAt(v, w, ParentOf(dest));
    if src in v {
      forall i | 0 <= i < |order| ensures SameAt(v, w, ParentOf(DestOf(src, dest, order[i]))) {
        if src == [] {
          assert src <= ParentOf(DestOf(src, dest, order[i]));
        } else {
          assert DestOf(src, dest, order[i]) == dest + order[i][|src|..];
          ParentInside(dest, dest + order[i][|src|..]);
        }
      }
      assert CpPlan(w, src, dest, order, modes) == CpPlan(v, src, dest, order, modes);
    }
  }

  lemma SamePlan(v: PathView, w: PathView, cmd: Cmd)
    requires Agrees(v, w, cmd) && Valid(v, cmd)
    ensures PlanOf(w, cmd) == PlanOf(v, cmd)
  {
    hide PlanRm, PlanCp, Agrees, HasChild;
    match cmd
    case Rm(p, recursive, order) =>
      AgreesAt(v, w, cmd, p);
      SameRmPlan(v, w, p, recursive, order);
    case Cp(src, dest, recursive, order, modes) =>
      AgreesAt(v, w, cmd, src);
      AgreesAt(v, w, cmd, dest);
      SameCpPlan(v, w, src, dest, recursive, order, modes);
    case Mv(src, dest, _, _) =>
      AgreesAt(v, w, cmd, src);
      AgreesAt(v, w, cmd, dest);
    case HardLink(a, p) =>
      AgreesAt(v, w, cmd, a);
      AgreesAt(v, w, cmd, p);
    case Mkdir(p, _) => AgreesAt(v, w, cmd, p);
    case MkdirSegment(p, _, _) => AgreesAt(v, w, cmd, p);
    case WriteFile(p, _, _, _) => AgreesAt(v, w, cmd, p);
    case MakeSymlink(_, p) => AgreesAt(v, w, cmd, p);
    case ChangeMode(p, _) => AgreesAt(v, w, cmd, p);
  }

  // ── The two together ───────────────────────────────────────────────────────

  lemma ConsultsElsewhere(cmd: Cmd, roots: set<Path>, q: Path)
    requires Disjoint(roots, Roots(cmd)) && Consults(cmd, q)
    ensures !Covers(roots, q)
  {
    var m :| m in Roots(cmd) && (m <= q || q == ParentOf(m));
    forall r | r in roots ensures !(r <= q) { Comparable(r, m, q); }
  }

  lemma Comparable(r: Path, m: Path, q: Path)
    requires m <= q || q == ParentOf(m)
    ensures r <= q ==> r <= m || m <= r
  {
    if r <= q && m <= q { assert r == q[..|r|] && m == q[..|m|]; }
  }

  // ── A mode change reaches every name of its inode ──────────────────────────

  /** The mode cached at `q` goes into the plan: a copy carries the modes of what it copies, and a
      write without a mode of its own keeps the mode of the file it replaces. */
  predicate CarriesMode(v: PathView, cmd: Cmd, q: Path) {
    && q in v && PlanOf(v, cmd).Does?
    && match cmd
       case Cp(src, _, _, order, modes) => q !in modes && (q == src || (v[src].meta.kind == Directory && q in order))
       case WriteFile(p, mode, _, _) => q == p && mode.None? && v[p].meta.kind == File
       case _ => false
  }

  /** The plan carries a mode that the change makes another one. */
  ghost predicate Reaches(v: PathView, id: Id, mode: int, cmd: Cmd) {
    exists q :: CarriesMode(v, cmd, q) && v[q].id == id && v[q].meta.mode != mode
  }

  ghost predicate OnlyModes(v: PathView, w: PathView) {
    w.Keys == v.Keys && forall q :: q in v ==> w[q] == v[q].(meta := v[q].meta.(mode := w[q].meta.mode))
  }

  lemma Patched(v: PathView, id: Id, mode: int)
    ensures var w := ApplyChange(v, PatchMode(id, mode));
            OnlyModes(v, w) && forall q :: q in v ==> w[q].meta.mode == if v[q].id == id then mode else v[q].meta.mode
  {
  }

  lemma SameChildrenByKeys(v: PathView, w: PathView, at: Path)
    requires w.Keys == v.Keys
    ensures HasChild(w, at) == HasChild(v, at)
  {
    forall p | p in v ensures p in w { assert p in w.Keys; }
    forall p | p in w ensures p in v { assert p in v.Keys; }
  }

  lemma ModelessPlan(v: PathView, w: PathView, cmd: Cmd)
    requires OnlyModes(v, w) && !cmd.Cp? && !cmd.WriteFile?
    ensures PlanOf(w, cmd) == PlanOf(v, cmd)
  {
    hide HasChild;
    match cmd
    case Rm(p, recursive, order) =>
      SameChildrenByKeys(v, w, p);
      if forall i :: 0 <= i < |order| ==> order[i] in v { assert RmPlan(w, p, order) == RmPlan(v, p, order); }
    case Mv(_, dest, _, _) => SameChildrenByKeys(v, w, dest);
    case _ =>
  }

  lemma CopyPlan(v: PathView, w: PathView, cmd: Cmd)
    requires OnlyModes(v, w) && cmd.Cp? && Valid(v, cmd)
    ensures PlanOf(w, cmd) == PlanOf(v, cmd) <==> forall q :: CarriesMode(v, cmd, q) ==> w[q] == v[q]
  {
    var src, dest, order := cmd.src, cmd.dest, cmd.order;
    forall i | 0 <= i < |order| ensures order[i] in v && src <= order[i] { assert order[i] in order; }
    if PlanOf(v, cmd).Does? && v[src].meta.kind == Directory {
      assert src in order;
      CopySteps(v, w, src, dest, order, cmd.modes);
    } else if PlanOf(v, cmd).Does? {
      assert src !in cmd.modes ==> CarriesMode(v, cmd, src);
    }
  }

  lemma CopySteps(v: PathView, w: PathView, src: Path, dest: Path, order: seq<Path>, modes: Modes)
    requires OnlyModes(v, w) && forall i :: 0 <= i < |order| ==> order[i] in v && src <= order[i]
    ensures CpPlan(w, src, dest, order, modes) == CpPlan(v, src, dest, order, modes) <==>
              forall q :: q in order && q !in modes ==> w[q] == v[q]
  {
    var a, b := CpPlan(v, src, dest, order, modes), CpPlan(w, src, dest, order, modes);
    assert forall i :: 0 <= i < |order| ==> (b[i] == a[i] <==> order[i] in modes || w[order[i]] == v[order[i]]);
    if a == b {
      forall q | q in order && q !in modes ensures w[q] == v[q] {
        var i :| 0 <= i < |order| && order[i] == q;
        assert b[i] == a[i];
      }
    }
  }

  /** A mode change leaves a plan alone exactly when the plan carries no mode that it changes. */
  lemma PatchAndPlan(v: PathView, id: Id, mode: int, cmd: Cmd)
    requires Valid(v, cmd)
    ensures PlanOf(ApplyChange(v, PatchMode(id, mode)), cmd) == PlanOf(v, cmd) <==> !Reaches(v, id, mode, cmd)
  {
    var w := ApplyChange(v, PatchMode(id, mode));
    Patched(v, id, mode);
    hide ApplyChange;
    if cmd.Cp? {
      CopyPlan(v, w, cmd);
      hide PlanOf;
      assert forall q :: CarriesMode(v, cmd, q) ==> (w[q] == v[q] <==> v[q].id != id || v[q].meta.mode == mode);
    } else if cmd.WriteFile? {
      assert CarriesMode(v, cmd, cmd.path) || !CarriesMode(v, cmd, cmd.path);
    } else {
      ModelessPlan(v, w, cmd);
    }
  }

  /** While another operation on paths that do not overlap goes through, the plan stays the plan, with
      one exception: a mode change reaches every name of its inode, so it alters exactly the plans that
      carry that mode through another name. */
  lemma PlanSurvives(v: PathView, other: Cmd, ids: seq<Id>, cmd: Cmd)
    requires Valid(v, other) && PlanOf(v, other).Does? && |ids| == Mints(PlanOf(v, other).op)
    requires Valid(v, cmd) && Disjoint(Roots(other), Roots(cmd))
    ensures PlanOf(Publish(v, other, ids), cmd) == PlanOf(v, cmd) <==>
              !(other.ChangeMode? && Reaches(v, v[other.path].id, other.mode, cmd))
  {
    if other.ChangeMode? {
      OneChange(v, PatchMode(v[other.path].id, other.mode));
      PatchAndPlan(v, v[other.path].id, other.mode, cmd);
    } else {
      OtherPlanSurvives(v, other, ids, cmd);
    }
  }

  lemma PublishStaysInside(v: PathView, cmd: Cmd, ids: seq<Id>)
    requires !cmd.ChangeMode? && Valid(v, cmd) && PlanOf(v, cmd).Does? && |ids| == Mints(PlanOf(v, cmd).op)
    ensures SameOutside(v, Publish(v, cmd, ids), Roots(cmd))
  {
    hide PlanOf, Valid, Touches, Covers;
    forall i | 0 <= i < |Changes(v, cmd, ids)| ensures Touches(Changes(v, cmd, ids)[i], Roots(cmd)) {
      ChangeInside(v, cmd, ids, i);
    }
    ChangesStayInside(v, Changes(v, cmd, ids), Roots(cmd));
  }

  lemma OtherPlanSurvives(v: PathView, other: Cmd, ids: seq<Id>, cmd: Cmd)
    requires Valid(v, other) && PlanOf(v, other).Does? && |ids| == Mints(PlanOf(v, other).op) && !other.ChangeMode?
    requires Valid(v, cmd) && Disjoint(Roots(other), Roots(cmd))
    ensures PlanOf(Publish(v, other, ids), cmd) == PlanOf(v, cmd)
  {
    hide PlanOf, Valid, Touches, Covers;
    var w := Publish(v, other, ids);
    PublishStaysInside(v, other, ids);
    forall q | Consults(cmd, q) ensures SameAt(v, w, q) { ConsultsElsewhere(cmd, Roots(other), q); }
    SamePlan(v, w, cmd);
  }

  /** The exception is real: a mode change through one name of a file changes the plan of a copy that
      reads the same file through another. */
  lemma PatchReachesOtherName()
    ensures var file := Entry(2, Meta(File, 420, 0, None, None));
            var v: PathView := map[[] := Entry(1, ROOT_META), ["a"] := file, ["b"] := file];
            var other, cmd := ChangeMode(["a"], 256), Cp(["b"], ["c"], false, [["b"]], map[]);
            && Valid(v, other) && Valid(v, cmd) && Disjoint(Roots(other), Roots(cmd))
            && PlanOf(v, other) == Does(ChmodOp(2, 256))
            && PlanOf(Publish(v, other, []), cmd) != PlanOf(v, cmd)
  {
    var file := Entry(2, Meta(File, 420, 0, None, None));
    var v: PathView := map[[] := Entry(1, ROOT_META), ["a"] := file, ["b"] := file];
    var other, cmd := ChangeMode(["a"], 256), Cp(["b"], ["c"], false, [["b"]], map[]);
    assert ["a"][0] == "a" && ["b"][0] == "b" && ["c"][0] == "c";
    OneChange(v, PatchMode(2, 256));
    assert forall p: Path :: p in [["b"]] <==> p in v && ["b"] <= p;
    assert PlanOf(v, cmd) == Does(CpOp((1, "c"), file.meta));
    var w := Publish(v, other, []);
    assert w[["b"]].meta.mode == 256 && w[[]] == v[[]] && ["c"] !in w;
  }
}
