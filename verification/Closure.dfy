/** Views without holes: every cached path hangs under cached directories. Publications keep them so,
    unless the command clashes with what is there, which the tables refuse. */
module Closure {
  import opened Options
  import opened Tables
  import opened View
  import opened Commands
  import opened Agreement
  import opened Subtrees
  import opened CommandLaw
  import opened Runs

  predicate Hangs(v: PathView, p: Path) {
    p == [] || (ParentOf(p) in v && v[ParentOf(p)].meta.kind == Directory)
  }

  ghost predicate Closed(v: PathView) {
    [] in v && v[[]].meta.kind == Directory && forall p :: p in v ==> Hangs(v, p) && Normal(p)
  }

  lemma MirrorClosed(v: PathView, t: Tree)
    requires InStep(v, t) && NormalView(v)
    ensures Closed(v)
  {
    RootStored(t);
    assert Lookup(t, []) == Some(t.root);
    forall p | p in v ensures Hangs(v, p) && Normal(p) {
      if p != [] { StoredParent(v, t, p); }
    }
  }

  lemma {:induction false} AncestorIn(v: PathView, p: Path, q: Path)
    requires Closed(v) && p in v && q <= p
    ensures q in v && (q != p ==> v[q].meta.kind == Directory)
    decreases |p|
  {
    if q != p {
      assert Hangs(v, p);
      assert q <= ParentOf(p);
      AncestorIn(v, ParentOf(p), q);
    }
  }

  lemma ClosedPut(v: PathView, p: Path, e: Entry)
    requires Closed(v) && p != [] && Normal(p) && Hangs(v, p)
    requires p in v ==> v[p].meta.kind != Directory || e.meta.kind == Directory
    ensures Closed(v[p := e])
  {
    var w := v[p := e];
    assert ParentOf(p) != p;
    forall q | q in w ensures Hangs(w, q) && Normal(q) {
      if q != p { assert Hangs(v, q) && Normal(q); }
    }
  }

  /** Same paths, same kinds. */
  ghost predicate SameShape(v: PathView, w: PathView) {
    w.Keys == v.Keys && forall p :: p in v ==> w[p].meta.kind == v[p].meta.kind
  }

  lemma ClosedSame(v: PathView, w: PathView)
    requires Closed(v) && SameShape(v, w)
    ensures Closed(w)
  {
    assert [] in v.Keys;
    forall p | p in w ensures Hangs(w, p) && Normal(p) {
      assert p in v.Keys;
      assert Hangs(v, p) && Normal(p);
      assert p != [] ==> ParentOf(p) in v.Keys;
    }
  }

  // ── Clashes ────────────────────────────────────────────────────────────────

  /** The command would create an entry where there is one, or remove the root: planning lets these pass. */
  ghost predicate Clashes(v: PathView, cmd: Cmd) {
    match cmd
    case MkdirSegment(p, _, _) => p in v
    case MakeSymlink(_, p) => p in v
    case Rm(p, _, _) => p == []
    case Cp(src, dest, _, order, _) =>
      && src in v && v[src].meta.kind == Directory
      && exists i :: 0 <= i < |order| && src <= order[i] && DestOf(src, dest, order[i]) in v
    case _ => false
  }

  // ── Publications keep a view closed ────────────────────────────────────────

  lemma ParentHangs(v: PathView, p: Path)
    requires RequireParent(v, p).None?
    ensures ParentOf(p) in v && v[ParentOf(p)].meta.kind == Directory && Hangs(v, p)
  {
  }

  ghost predicate Publishable(v: PathView, cmd: Cmd, ids: seq<Id>) {
    && Closed(v) && NormalCmd(cmd) && Valid(v, cmd) && !LinksRoot(cmd)
    && PlanOf(v, cmd).Does? && |ids| == Mints(PlanOf(v, cmd).op) && !Clashes(v, cmd)
  }

  lemma ClosedSimple(v: PathView, cmd: Cmd, ids: seq<Id>)
    requires Publishable(v, cmd, ids) && !cmd.Rm? && !cmd.Mv? && !cmd.Cp?
    ensures Closed(Publish(v, cmd, ids))
  {
    match cmd
    case Mkdir(p, mode) =>
      var e := Entry(ids[0], Meta(Directory, mode, 0, None, None));
      ParentHangs(v, p);
      OneChange(v, Put(p, e));
      ClosedPut(v, p, e);
    case MkdirSegment(p, mode, _) =>
      var e := Entry(ids[0], Meta(Directory, mode, 0, None, None));
      ParentHangs(v, p);
      OneChange(v, Put(p, e));
      ClosedPut(v, p, e);
    case WriteFile(p, _, _, _) =>
      var e := Entry(ids[0], WriteMeta(v, cmd));
      ParentHangs(v, p);
      OneChange(v, Put(p, e));
      ClosedPut(v, p, e);
    case MakeSymlink(target, p) =>
      var e := Entry(ids[0], SymlinkMeta(target));
      ParentHangs(v, p);
      OneChange(v, Put(p, e));
      ClosedPut(v, p, e);
    case HardLink(existing, p) =>
      ParentHangs(v, p);
      OneChange(v, Put(p, v[existing]));
      ClosedPut(v, p, v[existing]);
    case ChangeMode(p, mode) =>
      OneChange(v, PatchMode(v[p].id, mode));
      ClosedSame(v, Publish(v, cmd, ids));
  }

  lemma ClosedRm(v: PathView, cmd: Cmd, ids: seq<Id>)
    requires Publishable(v, cmd, ids) && cmd.Rm?
    ensures Closed(Publish(v, cmd, ids))
  {
    var p := cmd.path;
    var w := Publish(v, cmd, ids);
    if cmd.recursive && v[p].meta.kind == Directory {
      ApplyDeletes(v, cmd.order);
      assert forall q :: q in w <==> q in v && !(p <= q);
    } else {
      OneChange(v, Delete(p));
      assert w == v - {p};
    }
    forall q | q in w ensures Hangs(w, q) && Normal(q) {
      assert Hangs(v, q) && Normal(q);
      if q != [] {
        assert p <= ParentOf(q) ==> p <= q;
        assert ParentOf(q) == p ==> HasChild(v, p);
      }
    }
  }

  lemma ClosedMv(v: PathView, cmd: Cmd, ids: seq<Id>)
    requires Publishable(v, cmd, ids) && cmd.Mv?
    ensures Closed(Publish(v, cmd, ids))
  {
    var src, dest := cmd.src, cmd.dest;
    var w := Publish(v, cmd, ids);
    ParentHangs(v, dest);
    if src <= dest && src != dest {
      assert src <= ParentOf(dest);
      AncestorIn(v, ParentOf(dest), src);
    }
    assert !(src <= dest);
    MovedView(v, src, dest, cmd.order, cmd.hidden);
    hide Valid, PlanOf, Publish;
    MovedClosed(v, src, dest, w);
  }

  /** Where a moved path came from. */
  lemma MovedFrom(src: Path, dest: Path, q: Path)
    requires dest < q
    ensures dest <= ParentOf(q) && src + q[|dest|..] != []
    ensures ParentOf(src + q[|dest|..]) == src + ParentOf(q)[|dest|..]
  {
    assert ParentOf(q)[|dest|..] == q[|dest|..][..|q| - |dest| - 1];
  }

  lemma NormalMoved(src: Path, dest: Path, q: Path)
    requires dest <= q && Normal(dest) && Normal(src + q[|dest|..])
    ensures Normal(q)
  {
    var from := src + q[|dest|..];
    forall i | 0 <= i < |q| ensures q[i] != "" {
      if i < |dest| { assert q[i] == dest[i]; } else { assert q[i] == from[|src| + i - |dest|]; }
    }
  }

  lemma MovedUnder(v: PathView, src: Path, dest: Path, w: PathView, q: Path)
    requires Closed(v) && !(src <= dest) && Hangs(v, dest) && dest != [] && Normal(dest)
    requires Moved(v - {dest}, src, dest, w) && q in w && dest <= q
    ensures Hangs(w, q) && Normal(q)
  {
    var from := src + q[|dest|..];
    assert from in v && Hangs(v, from) && Normal(from);
    NormalMoved(src, dest, q);
    if q == dest {
      assert !(src <= ParentOf(dest)) && !(dest <= ParentOf(dest));
    } else {
      MovedFrom(src, dest, q);
      assert src <= ParentOf(from);
      assert dest <= src ==> dest <= ParentOf(from);
    }
  }

  lemma MovedElsewhere(v: PathView, src: Path, dest: Path, w: PathView, q: Path)
    requires Closed(v) && Moved(v - {dest}, src, dest, w) && q in w && !(dest <= q)
    ensures Hangs(w, q) && Normal(q)
  {
    assert Hangs(v, q) && Normal(q);
    if q != [] { assert !(src <= ParentOf(q)) && !(dest <= ParentOf(q)); }
  }

  lemma MovedClosed(v: PathView, src: Path, dest: Path, w: PathView)
    requires Closed(v) && !(src <= dest) && src in v && Hangs(v, dest) && dest != [] && Normal(dest)
    requires Moved(v - {dest}, src, dest, w)
    ensures Closed(w)
  {
    assert src != [];
    hide Moved, Hangs;
    RootStays(v, src, dest, w);
    forall q | q in w ensures Hangs(w, q) && Normal(q) {
      if dest <= q { MovedUnder(v, src, dest, w, q); } else { MovedElsewhere(v, src, dest, w, q); }
    }
  }

  lemma RootStays(v: PathView, src: Path, dest: Path, w: PathView)
    requires Closed(v) && src != [] && dest != [] && Moved(v - {dest}, src, dest, w)
    ensures [] in w && w[[]].meta.kind == Directory
  {
  }

  lemma {:induction false} PutsAre(v: PathView, cs: seq<Change>, q: Path)
    requires forall i :: 0 <= i < |cs| ==> cs[i].Put?
    ensures q in ApplyChanges(v, cs) <==> q in v || exists i :: 0 <= i < |cs| && cs[i].path == q
    ensures q in ApplyChanges(v, cs) ==>
              || (q in v && ApplyChanges(v, cs)[q] == v[q] && forall i :: 0 <= i < |cs| ==> cs[i].path != q)
              || exists i :: 0 <= i < |cs| && cs[i] == Put(q, ApplyChanges(v, cs)[q])
    decreases |cs|
  {
    if cs != [] {
      var n := |cs| - 1;
      var init, w := cs[..n], ApplyChanges(v, cs);
      PutsAre(v, init, q);
      assert cs[n] == Put(cs[n].path, cs[n].entry);
      if q in w && q != cs[n].path && !(q in v && w[q] == v[q] && forall i :: 0 <= i < n ==> init[i].path != q) {
        var i :| 0 <= i < n && init[i] == Put(q, w[q]);
        assert cs[i] == Put(q, w[q]);
      }
      if i :| 0 <= i < n && cs[i].path == q { assert init[i].path == q; }
    }
  }

  lemma DestInjective(src: Path, dest: Path, a: Path, b: Path)
    requires src <= a && src <= b && Normal(a) && Normal(b) && dest != []
             && DestOf(src, dest, a) == DestOf(src, dest, b)
    ensures a == b
  {
    if src == [] {
      var x, y := DestOf(src, dest, a), DestOf(src, dest, b);
      var n := |dest| - 1;
      assert a == [] ==> x[n] == NameOf(dest);
      assert b == [] ==> y[n] == NameOf(dest);
      assert a != [] ==> x[n] == NameOf(dest) + a[0] && x[n + 1..] == a[1..] && |x[n]| > |NameOf(dest)|;
      assert b != [] ==> y[n] == NameOf(dest) + b[0] && y[n + 1..] == b[1..] && |y[n]| > |NameOf(dest)|;
      if a != [] {
        assert (NameOf(dest) + a[0])[|NameOf(dest)|..] == a[0] && (NameOf(dest) + b[0])[|NameOf(dest)|..] == b[0];
        assert a == [a[0]] + a[1..] && b == [b[0]] + b[1..];
      }
    } else {
      assert (dest + a[|src|..])[|dest|..] == a[|src|..] && (dest + b[|src|..])[|dest|..] == b[|src|..];
      assert a == src + a[|src|..] && b == src + b[|src|..];
    }
  }

  ghost predicate CopyOf(v: PathView, src: Path, dest: Path, order: seq<Path>, w: PathView)
    requires forall i :: 0 <= i < |order| ==> order[i] in v && src <= order[i]
  {
    && (forall q :: q in v ==> q in w && w[q].meta.kind == v[q].meta.kind)
    && (forall q :: q in w && q !in v ==> exists i :: 0 <= i < |order| && q == DestOf(src, dest, order[i]))
    && (forall i :: 0 <= i < |order| ==>
          && DestOf(src, dest, order[i]) in w
          && w[DestOf(src, dest, order[i])].meta.kind == v[order[i]].meta.kind)
  }

  lemma CopiesClosed(v: PathView, src: Path, dest: Path, order: seq<Path>, w: PathView)
    requires Closed(v) && src in v && dest != [] && Normal(dest) && RequireParent(v, dest).None? && Lists(v, src, order)
    requires forall i :: 0 <= i < |order| ==> order[i] in v && src <= order[i]
    requires CopyOf(v, src, dest, order, w)
    ensures Closed(w)
  {
    forall q | q in w ensures Hangs(w, q) && Normal(q) {
      if q in v {
        assert Hangs(v, q) && Normal(q);
      } else {
        var i :| 0 <= i < |order| && q == DestOf(src, dest, order[i]);
        var p := order[i];
        assert Hangs(v, p) && Normal(p);
        DestNormal(src, dest, p);
        DestParent(src, dest, p);
        if p == src || (src == [] && |p| == 1) {
          assert ParentOf(dest) in v;
        } else {
          assert ParentOf(p) in order;
          var j :| 0 <= j < |order| && order[j] == ParentOf(p);
          assert DestOf(src, dest, order[j]) in w;
        }
      }
    }
  }

  /** One put for each copied path, of an entry of the kind of its source. */
  ghost predicate PutsCopies(v: PathView, src: Path, dest: Path, order: seq<Path>, cs: seq<Change>) {
    && |cs| == |order|
    && forall j :: 0 <= j < |order| ==>
         && order[j] in v && src <= order[j] && DestOf(src, dest, order[j]) !in v
         && cs[j].Put? && cs[j].path == DestOf(src, dest, order[j]) && cs[j].entry.meta.kind == v[order[j]].meta.kind
  }

  /** The last put at a copied path is the put of its own source. */
  lemma CopyPutAt(v: PathView, src: Path, dest: Path, order: seq<Path>, cs: seq<Change>, i: nat)
    requires NormalView(v) && dest != [] && i < |order| && PutsCopies(v, src, dest, order, cs)
    ensures var q, w := DestOf(src, dest, order[i]), ApplyChanges(v, cs);
            q in w && w[q].meta.kind == v[order[i]].meta.kind
  {
    var q := DestOf(src, dest, order[i]);
    hide DestOf;
    PutsAre(v, cs, q);
    assert cs[i].path == q;
    var w := ApplyChanges(v, cs);
    hide ApplyChanges;
    var j :| 0 <= j < |cs| && cs[j] == Put(q, w[q]);
    DestInjective(src, dest, order[i], order[j]);
  }

  lemma NewIsCopy(v: PathView, src: Path, dest: Path, order: seq<Path>, cs: seq<Change>, q: Path)
    requires PutsCopies(v, src, dest, order, cs)
    ensures q in v ==> q in ApplyChanges(v, cs) && ApplyChanges(v, cs)[q] == v[q]
    ensures q in ApplyChanges(v, cs) && q !in v ==>
              exists i :: 0 <= i < |order| && src <= order[i] && q == DestOf(src, dest, order[i])
  {
    PutsAre(v, cs, q);
    hide ApplyChanges, DestOf;
  }

  lemma CopyPutsShape(v: PathView, src: Path, dest: Path, order: seq<Path>, modes: Modes, ids: seq<Id>)
    requires |ids| == |order|
    requires forall i :: 0 <= i < |order| ==> order[i] in v && src <= order[i] && DestOf(src, dest, order[i]) !in v
    ensures PutsCopies(v, src, dest, order, CopyPuts(CpPlan(v, src, dest, order, modes), ids))
  {
    hide DestOf;
  }

  lemma CopyOfPuts(v: PathView, src: Path, dest: Path, order: seq<Path>, cs: seq<Change>)
    requires NormalView(v) && dest != [] && PutsCopies(v, src, dest, order, cs)
    requires forall i :: 0 <= i < |order| ==> order[i] in v && src <= order[i]
    ensures CopyOf(v, src, dest, order, ApplyChanges(v, cs))
  {
    hide ApplyChanges, DestOf, NormalView, PutsCopies;
    var w := ApplyChanges(v, cs);
    forall q | q in v ensures q in w && w[q].meta.kind == v[q].meta.kind { NewIsCopy(v, src, dest, order, cs, q); }
    forall q | q in w && q !in v ensures exists i :: 0 <= i < |order| && q == DestOf(src, dest, order[i]) {
      NewIsCopy(v, src, dest, order, cs, q);
    }
    forall i | 0 <= i < |order|
      ensures DestOf(src, dest, order[i]) in w && w[DestOf(src, dest, order[i])].meta.kind == v[order[i]].meta.kind
    {
      CopyPutAt(v, src, dest, order, cs, i);
    }
  }

  lemma CopyPutsAre(v: PathView, src: Path, dest: Path, order: seq<Path>, modes: Modes, ids: seq<Id>)
    requires Closed(v) && dest != [] && |ids| == |order| && Lists(v, src, order)
    requires forall i :: 0 <= i < |order| ==> order[i] in v && src <= order[i] && DestOf(src, dest, order[i]) !in v
    ensures CopyOf(v, src, dest, order, ApplyChanges(v, CopyPuts(CpPlan(v, src, dest, order, modes), ids)))
  {
    ClosedNormal(v);
    hide Closed, Lists, CpPlan, CopyPuts, ApplyChanges, DestOf, NormalView, PutsCopies, CopyOf;
    CopyPutsShape(v, src, dest, order, modes, ids);
    CopyOfPuts(v, src, dest, order, CopyPuts(CpPlan(v, src, dest, order, modes), ids));
  }

  lemma ClosedNormal(v: PathView)
    requires Closed(v)
    ensures NormalView(v)
  {
  }

  lemma ClosedCp(v: PathView, cmd: Cmd, ids: seq<Id>)
    requires Publishable(v, cmd, ids) && cmd.Cp?
    ensures Closed(Publish(v, cmd, ids))
  {
    var src, dest, order := cmd.src, cmd.dest, cmd.order;
    ParentHangs(v, dest);
    if v[src].meta.kind == Directory {
      forall i | 0 <= i < |order| ensures order[i] in v && src <= order[i] { assert order[i] in order; }
      CopyPutsAre(v, src, dest, order, cmd.modes, ids);
      CopiesClosed(v, src, dest, order, Publish(v, cmd, ids));
    } else {
      var e := Entry(ids[0], SeenMeta(v[src].meta, cmd.modes, src));
      OneChange(v, Put(dest, e));
      ClosedPut(v, dest, e);
    }
  }

  /** A command that does not clash leaves a closed view. */
  lemma ClosedPublish(v: PathView, cmd: Cmd, ids: seq<Id>)
    requires Publishable(v, cmd, ids)
    ensures Closed(Publish(v, cmd, ids))
  {
    hide Publishable, Publish;
    match cmd
    case Rm(_, _, _) => ClosedRm(v, cmd, ids);
    case Mv(_, _, _, _) => ClosedMv(v, cmd, ids);
    case Cp(_, _, _, _, _) => ClosedCp(v, cmd, ids);
    case _ => ClosedSimple(v, cmd, ids);
  }
}
