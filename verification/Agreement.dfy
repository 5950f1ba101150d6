/** Statements and cache agree: after any namespace operation the published view is the new tree. */
module Agreement {
  import opened Options
  import opened Tables
  import opened View
  import opened Commands

  ghost function Base(t: Tree): multiset<Id> {
    multiset{t.root}
  }

  /** A fresh inode linked at a free path. */
  lemma AgreeCreate(v: PathView, t: Tree, at: Path, meta: Meta, id: Id)
    requires InStep(v, t) && at != [] && at !in v && RequireParent(v, at).None? && id !in t.inodes
    ensures InStep(v[at := Entry(id, meta)], Link(AddInode(t, id, meta), KeyOf(v, at), id))
    ensures KeyOf(v, at) !in t.dirents && KeyOf(v, at).0 in t.inodes
  {
    RelinkSlot(v, t, Base(t), at, meta, id);
  }

  /** A fresh inode put in the place of an entry without children. */
  lemma AgreeReplace(v: PathView, t: Tree, at: Path, meta: Meta, id: Id)
    requires InStep(v, t) && at in v && at != [] && v[at].meta.kind != Directory && id !in t.inodes
    ensures ParentOf(at) in v && KeyOf(v, at).0 in t.inodes && KeyOf(v, at) in t.dirents
    ensures t.dirents[KeyOf(v, at)] == v[at].id
    ensures var t2 := Link(AddInode(t, id, meta), KeyOf(v, at), id);
            && Drop(t2, v[at].id) == Some(DropComposite(t2, v[at].id))
            && InStep(v[at := Entry(id, meta)], DropComposite(t2, v[at].id))
  {
    hide WellFormed, Mirrors;
    var prior := v[at].id;
    ReplacedLink(v, t, at, meta, id);
    var t2 := Link(AddInode(t, id, meta), KeyOf(v, at), id);
    MirrorDrop(v[at := Entry(id, meta)], t2, Base(t) + multiset{prior}, prior);
    assert Base(t) + multiset{prior} - multiset{prior} == Base(t);
  }

  lemma ReplacedLink(v: PathView, t: Tree, at: Path, meta: Meta, id: Id)
    requires InStep(v, t) && at in v && at != [] && v[at].meta.kind != Directory && id !in t.inodes
    ensures ParentOf(at) in v && KeyOf(v, at).0 in t.inodes && KeyOf(v, at) in t.dirents
    ensures t.dirents[KeyOf(v, at)] == v[at].id && v[at].id != t.root
    ensures var t2 := Link(AddInode(t, id, meta), KeyOf(v, at), id);
            && WellFormed(t2, Base(t) + multiset{v[at].id}) && Mirrors(v[at := Entry(id, meta)], t2)
            && Childless(t2, v[at].id)
  {
    hide Mirrors, WellFormed;
    ParentInView(v, t, Base(t), at);
    MirrorUnlink(v, t, Base(t), at);
    var pend, k := Base(t) + multiset{v[at].id}, KeyOf(v, at);
    LeafPrune(v, t, Base(t), at);
    RelinkSlot(v - {at}, Unlink(t, k), pend, at, meta, id);
    RelinkShape(t, k, meta, id);
    assert (v - {at})[at := Entry(id, meta)] == v[at := Entry(id, meta)];
  }

  lemma RelinkSlot(v: PathView, t: Tree, pend: multiset<Id>, at: Path, meta: Meta, id: Id)
    requires WellFormed(t, pend) && Mirrors(v, t) && at != [] && at !in v && RequireParent(v, at).None?
    requires id !in t.inodes
    ensures KeyOf(v, at) !in t.dirents && KeyOf(v, at).0 in t.inodes
    ensures var t2 := Link(AddInode(t, id, meta), KeyOf(v, at), id);
            WellFormed(t2, pend) && Mirrors(v[at := Entry(id, meta)], t2)
  {
    MirrorAdd(v, t, pend, id, meta);
    MirrorLink(v, AddInode(t, id, meta), pend + multiset{id}, at, id);
    assert pend + multiset{id} - multiset{id} == pend;
  }

  lemma ChildInView(v: PathView, t: Tree, at: Path, k: Key)
    requires Mirrors(v, t) && at in v && k in t.dirents && k.0 == v[at].id
    ensures at + [k.1] in v && v[at + [k.1]].id == t.dirents[k]
  {
    var q := at + [k.1];
    assert ParentOf(q) == at && NameOf(q) == k.1;
    assert Lookup(t, q) == Some(t.dirents[k]);
  }

  /** Only the entry itself lies under a path that is no directory or has no child. */
  lemma LeafPrune(v: PathView, t: Tree, pend: multiset<Id>, at: Path)
    requires WellFormed(t, pend) && Mirrors(v, t) && at in v
    requires v[at].meta.kind == Directory ==> !HasChild(v, at)
    ensures Prune(v, at) == v - {at}
    ensures Childless(t, v[at].id)
  {
    forall k | k in t.dirents ensures k.0 != v[at].id {
      if k.0 == v[at].id { ChildInView(v, t, at, k); }
    }
    forall p | p in v && at <= p ensures p == at {
      if p != at {
        PrefixInView(v, t, pend, p[..|at| + 1], p);
        PrefixInView(v, t, pend, at, p);
      }
    }
  }

  lemma AgreeRm(v: PathView, t: Tree, at: Path)
    requires InStep(v, t) && at in v && at != [] && (v[at].meta.kind == Directory ==> !HasChild(v, at))
    ensures ParentOf(at) in v && KeyOf(v, at) in t.dirents && t.dirents[KeyOf(v, at)] == v[at].id
    ensures InStep(v - {at}, DropComposite(Unlink(t, KeyOf(v, at)), v[at].id))
  {
    hide WellFormed, Mirrors;
    MirrorUnlink(v, t, Base(t), at);
    LeafPrune(v, t, Base(t), at);
    MirrorDrop(v - {at}, Unlink(t, KeyOf(v, at)), Base(t) + multiset{v[at].id}, v[at].id);
    assert Base(t) + multiset{v[at].id} - multiset{v[at].id} == Base(t);
  }

  lemma IdStored(v: PathView, t: Tree, p: Path)
    requires InStep(v, t)
    ensures [] in v && v[[]].id == t.root && v[[]].meta.kind == Directory
    ensures p in v ==> v[p].id in t.inodes && v[p].meta == t.inodes[v[p].id].meta
  {
  }

  lemma AgreeLink(v: PathView, t: Tree, existing: Path, at: Path)
    requires InStep(v, t) && existing in v && v[existing].meta.kind != Directory
    requires at != [] && at !in v && RequireParent(v, at).None?
    ensures v[existing].id in t.inodes && KeyOf(v, at).0 in t.inodes && KeyOf(v, at) !in t.dirents
    ensures InStep(v[at := v[existing]], Link(Linked(t, v[existing].id), KeyOf(v, at), v[existing].id))
  {
    hide WellFormed, Mirrors, Lookup;
    var id := v[existing].id;
    IdStored(v, t, existing);
    IdStored(v, t, ParentOf(at));
    IdStored(v, t, []);
    MirrorIncrement(v, t, Base(t), id);
    MirrorLink(v, Linked(t, id), Base(t) + multiset{id}, at, id);
    assert Entry(id, Linked(t, id).inodes[id].meta) == v[existing];
    assert Base(t) + multiset{id} - multiset{id} == Base(t);
  }

  function Linked(t: Tree, id: Id): Tree
    requires id in t.inodes
  {
    SetNlink(t, id, t.inodes[id].nlink + 1)
  }

  // ── Moving a subtree ───────────────────────────────────────────────────────

  /** The pointwise shape of a view after `src` moved to `dest`. */
  ghost predicate Moved(v: PathView, src: Path, dest: Path, w: PathView) {
    && (forall p :: dest <= p ==> (p in w <==> src + p[|dest|..] in v))
    && (forall p :: dest <= p && p in w ==> w[p] == v[src + p[|dest|..]])
    && (forall p :: !(dest <= p) ==> (p in w <==> p in v && !(src <= p)))
    && (forall p :: !(dest <= p) && p in w ==> w[p] == v[p])
  }

  ghost predicate AgreeBelow(a: map<Key, Id>, b: map<Key, Id>, e: Id) {
    forall m :: ((e, m) in a <==> (e, m) in b) && ((e, m) in a ==> a[(e, m)] == b[(e, m)])
  }

  lemma {:induction false} WalkAgrees(a: map<Key, Id>, b: map<Key, Id>, start: Id, q: Path)
    requires forall n :: 0 <= n < |q| && Walk(a, start, q[..n]).Some? ==> AgreeBelow(a, b, Walk(a, start, q[..n]).value)
    ensures Walk(b, start, q) == Walk(a, start, q)
    decreases |q|
  {
    if q != [] {
      var p := ParentOf(q);
      assert forall n :: 0 <= n < |p| ==> p[..n] == q[..n];
      assert p == q[..|q| - 1];
      WalkAgrees(a, b, start, p);
    }
  }

  ghost predicate CanRename(v: PathView, t: Tree, src: Path, dest: Path) {
    && InStep(v, t) && src in v && src != [] && dest != [] && ParentOf(src) in v
    && RequireParent(v, dest).None? && !(src <= dest) && v[ParentOf(src)].meta.kind == Directory
  }

  lemma RenamedWalk(v: PathView, t: Tree, src: Path, dest: Path, q: Path)
    requires CanRename(v, t, src, dest)
    ensures Walk(Link(Unlink(t, KeyOf(v, src)), KeyOf(v, dest), v[src].id).dirents, v[src].id, q)
            == Lookup(t, src + q)
  {
    var k1, k2, id := KeyOf(v, src), KeyOf(v, dest), v[src].id;
    var b := Link(Unlink(t, k1), k2, id).dirents;
    WalkConcat(t.dirents, t.root, src, q);
    forall n | 0 <= n < |q| && Walk(t.dirents, id, q[..n]).Some?
      ensures AgreeBelow(t.dirents, b, Walk(t.dirents, id, q[..n]).value)
    {
      SubtreeAvoidsKeys(v, t, src, dest, q[..n]);
    }
    WalkAgrees(t.dirents, b, id, q);
  }

  lemma SubtreeAvoidsKeys(v: PathView, t: Tree, src: Path, dest: Path, s: Path)
    requires CanRename(v, t, src, dest) && Walk(t.dirents, v[src].id, s).Some?
    ensures Walk(t.dirents, v[src].id, s).value != KeyOf(v, src).0
    ensures Walk(t.dirents, v[src].id, s).value != KeyOf(v, dest).0
  {
    WalkConcat(t.dirents, t.root, src, s);
    var e := Walk(t.dirents, v[src].id, s).value;
    assert dest == ParentOf(dest) + [NameOf(dest)];
    assert Lookup(t, src + s) == Some(e);
    if e == KeyOf(v, src).0 { DirectoryPathUnique(t, Base(t), ParentOf(src), src + s); }
    if e == KeyOf(v, dest).0 { DirectoryPathUnique(t, Base(t), ParentOf(dest), src + s); }
  }

  lemma RenamedLookup(v: PathView, t: Tree, src: Path, dest: Path, p: Path)
    requires CanRename(v, t, src, dest) && dest !in v && WellFormed(t, Base(t))
    ensures KeyOf(v, src) in t.dirents
    ensures WellFormed(Unlink(t, KeyOf(v, src)), Base(t) + multiset{v[src].id})
    ensures KeyOf(v, dest) !in Unlink(t, KeyOf(v, src)).dirents && v[src].id != t.root
    ensures KeyOf(v, dest).0 in t.inodes && t.inodes[KeyOf(v, dest).0].meta.kind == Directory
    ensures Lookup(Link(Unlink(t, KeyOf(v, src)), KeyOf(v, dest), v[src].id), p)
            == if dest <= p then Lookup(t, src + p[|dest|..]) else if src <= p then None else Lookup(t, p)
  {
    var id, pend := v[src].id, Base(t) + multiset{v[src].id};
    MirrorUnlink(v, t, Base(t), src);
    var v1, t1 := Prune(v, src), Unlink(t, KeyOf(v, src));
    assert KeyOf(v1, dest) == KeyOf(v, dest);
    assert Lookup(t1, dest).None?;
    var t2 := Link(t1, KeyOf(v, dest), id);
    KeyDiffers(v1, t1, pend, t2, dest);
    if dest <= p {
      LookupUnder(t2, dest, p);
      RenamedWalk(v, t, src, dest, p[|dest|..]);
    } else {
      assert p in v1 <==> Lookup(t1, p).Some?;
      assert p in v <==> Lookup(t, p).Some?;
    }
  }

  /** Renaming the entry of `src` to a free slot outside `src` moves the whole subtree. */
  lemma AgreeRename(v: PathView, t: Tree, src: Path, dest: Path, w: PathView)
    requires CanRename(v, t, src, dest) && dest !in v && Moved(v, src, dest, w)
    ensures KeyOf(v, src) in t.dirents && KeyOf(v, dest).0 in t.inodes
    ensures t.dirents[KeyOf(v, src)] == v[src].id
    ensures InStep(w, Link(Unlink(t, KeyOf(v, src)), KeyOf(v, dest), v[src].id))
  {
    hide WellFormed, Mirrors;
    var id := v[src].id;
    ParentInView(v, t, Base(t), src);
    var t1 := Unlink(t, KeyOf(v, src));
    var t2 := Link(t1, KeyOf(v, dest), id);
    forall p ensures MirrorsAt(w, t2, p) { RenamedEntry(v, t, src, dest, w, p); }
    MirrorsPointwise(w, t2);
    RenamedLookup(v, t, src, dest, []);
    LinkLedger(t1, Base(t) + multiset{id}, KeyOf(v, dest), id);
    assert Base(t) + multiset{id} - multiset{id} == Base(t);
  }

  ghost predicate MirrorsAt(v: PathView, t: Tree, p: Path) {
    && (p in v <==> Lookup(t, p).Some?)
    && (p in v ==> v[p].id == Lookup(t, p).value && v[p].id in t.inodes && v[p].meta == t.inodes[v[p].id].meta)
  }

  lemma MirrorsPointwise(v: PathView, t: Tree)
    requires forall p :: MirrorsAt(v, t, p)
    ensures Mirrors(v, t)
  {
    forall p: Path
      ensures p in v <==> Lookup(t, p).Some?
      ensures p in v ==> v[p].id == Lookup(t, p).value && v[p].id in t.inodes && v[p].meta == t.inodes[v[p].id].meta
    {
      assert MirrorsAt(v, t, p);
    }
  }

  lemma RenamedEntry(v: PathView, t: Tree, src: Path, dest: Path, w: PathView, p: Path)
    requires CanRename(v, t, src, dest) && dest !in v && Moved(v, src, dest, w)
    ensures MirrorsAt(w, Link(Unlink(t, KeyOf(v, src)), KeyOf(v, dest), v[src].id), p)
  {
    hide WellFormed, Walk;
    RenamedLookup(v, t, src, dest, p);
    var q := if dest <= p then src + p[|dest|..] else p;
    assert MirrorsAt(v, t, q);
  }
}
