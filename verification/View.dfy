/** The cached path tree of a session and what it means for it to be the tree the tables hold. */
module View {
  import opened Options
  import opened Tables

  datatype Entry = Entry(id: Id, meta: Meta)
  type PathView = map<Path, Entry>

  datatype Change =
    | Put(path: Path, entry: Entry)
    | Delete(path: Path)
    | PatchMode(id: Id, mode: int)

  function ApplyChange(v: PathView, c: Change): PathView {
    match c
    case Put(p, e) => v[p := e]
    case Delete(p) => v - {p}
    case PatchMode(id, mode) =>
      map p | p in v :: if v[p].id == id then v[p].(meta := v[p].meta.(mode := mode)) else v[p]
  }

  /** What `publishMutation` leaves of the path tree. */
  function ApplyChanges(v: PathView, cs: seq<Change>): PathView {
    if cs == [] then v else ApplyChange(ApplyChanges(v, cs[..|cs| - 1]), cs[|cs| - 1])
  }

  /** The view holds exactly the tree under the stored root, each path with its inode's data. */
  ghost predicate Mirrors(v: PathView, t: Tree) {
    forall p: Path ::
      && (p in v <==> Lookup(t, p).Some?)
      && (p in v ==> v[p].id == Lookup(t, p).value && v[p].id in t.inodes && v[p].meta == t.inodes[v[p].id].meta)
  }

  /** At most one view is the tree of given tables, so a load has one possible result. */
  lemma MirrorUnique(v: PathView, w: PathView, t: Tree)
    requires Mirrors(v, t) && Mirrors(w, t)
    ensures v == w
  {
    assert forall p :: p in v <==> p in w;
  }

  function Prune(v: PathView, at: Path): PathView {
    map p | p in v && !(at <= p) :: v[p]
  }

  function RenameIds(v: PathView, f: map<Id, Id>): PathView {
    map p | p in v :: v[p].(id := if v[p].id in f then f[v[p].id] else v[p].id)
  }

  /** The directory entry that holds `at`, as a view names it. */
  function KeyOf(v: PathView, at: Path): Key
    requires ParentOf(at) in v
  {
    (v[ParentOf(at)].id, NameOf(at))
  }

  // ── How each statement carries the view along ──────────────────────────────

  lemma ParentInView(v: PathView, t: Tree, pend: multiset<Id>, at: Path)
    requires WellFormed(t, pend) && Mirrors(v, t) && at in v && at != []
    ensures ParentOf(at) in v && v[ParentOf(at)].meta.kind == Directory
    ensures KeyOf(v, at) in t.dirents && t.dirents[KeyOf(v, at)] == v[at].id
  {
    LookupLast(t, at);
  }

  /** Every proper prefix of a cached path is a cached directory. */
  lemma {:induction false} PrefixInView(v: PathView, t: Tree, pend: multiset<Id>, at: Path, p: Path)
    requires WellFormed(t, pend) && Mirrors(v, t) && p in v && at <= p
    ensures at in v && (at != p ==> v[at].meta.kind == Directory)
    decreases |p|
  {
    if at != p {
      ParentInView(v, t, pend, p);
      PrefixInView(v, t, pend, at, ParentOf(p));
    }
  }

  lemma SameIdSameDirectory(v: PathView, t: Tree, pend: multiset<Id>, p: Path, q: Path)
    requires WellFormed(t, pend) && Mirrors(v, t) && p in v && q in v && v[p].id == v[q].id
    requires v[p].meta.kind == Directory
    ensures p == q
  {
    DirectoryPathUnique(t, pend, p, q);
  }

  lemma KeyDiffers(v: PathView, t: Tree, pend: multiset<Id>, t2: Tree, at: Path)
    requires WellFormed(t, pend) && Mirrors(v, t) && at != [] && ParentOf(at) in v
    requires v[ParentOf(at)].meta.kind == Directory && t2.root == t.root
    requires forall k :: k != KeyOf(v, at) ==> Find(t2, k) == Find(t, k)
    ensures DifferAt(t, t2, at)
    ensures forall p :: !(at <= p) ==> Lookup(t2, p) == Lookup(t, p)
    ensures Lookup(t2, at) == Find(t2, KeyOf(v, at))
  {
    forall p | !(at <= p) ensures Lookup(t2, p) == Lookup(t, p) {
      LookupOutside(t, pend, t2, at, p);
    }
    assert !(at <= ParentOf(at));
  }

  lemma MirrorUnlink(v: PathView, t: Tree, pend: multiset<Id>, at: Path)
    requires WellFormed(t, pend) && Mirrors(v, t) && at != [] && at in v
    ensures ParentOf(at) in v && KeyOf(v, at) in t.dirents && t.dirents[KeyOf(v, at)] == v[at].id
    ensures v[at].id != t.root
    ensures WellFormed(Unlink(t, KeyOf(v, at)), pend + multiset{v[at].id})
    ensures Mirrors(Prune(v, at), Unlink(t, KeyOf(v, at)))
  {
    ParentInView(v, t, pend, at);
    var k := KeyOf(v, at);
    var t2, v2 := Unlink(t, k), Prune(v, at);
    UnlinkLedger(t, pend, k);
    KeyDiffers(v, t, pend, t2, at);
    forall p ensures p in v2 <==> Lookup(t2, p).Some? {
      if at <= p { LookupUnder(t2, at, p); }
    }
  }

  lemma MirrorLink(v: PathView, t: Tree, pend: multiset<Id>, at: Path, id: Id)
    requires WellFormed(t, pend) && Mirrors(v, t) && at != [] && at !in v
    requires ParentOf(at) in v && v[ParentOf(at)].meta.kind == Directory
    requires id in pend && id != t.root && Childless(t, id) && id != v[ParentOf(at)].id
    ensures KeyOf(v, at) !in t.dirents && id in t.inodes
    ensures WellFormed(Link(t, KeyOf(v, at), id), pend - multiset{id})
    ensures Mirrors(v[at := Entry(id, t.inodes[id].meta)], Link(t, KeyOf(v, at), id))
  {
    var k := KeyOf(v, at);
    assert Lookup(t, at).None?;
    var t2 := Link(t, k, id);
    LinkLedger(t, pend, k, id);
    KeyDiffers(v, t, pend, t2, at);
    forall p ensures Lookup(t2, p) == if p == at then Some(id) else Lookup(t, p) {
      if at <= p { LookupNewLeaf(t, t2, at, id, p); }
    }
  }

  lemma LookupNewLeaf(t: Tree, t2: Tree, at: Path, id: Id, p: Path)
    requires at <= p && Lookup(t, at).None? && Lookup(t2, at) == Some(id) && Childless(t2, id)
    ensures Lookup(t, p).None?
    ensures Lookup(t2, p) == if p == at then Some(id) else None
  {
    LookupUnder(t2, at, p);
    LookupUnder(t, at, p);
    if p != at { WalkFromChildless(t2, id, p[|at|..]); }
  }

  lemma MirrorAdd(v: PathView, t: Tree, pend: multiset<Id>, id: Id, meta: Meta)
    requires WellFormed(t, pend) && Mirrors(v, t) && id !in t.inodes
    ensures WellFormed(AddInode(t, id, meta), pend + multiset{id})
    ensures Mirrors(v, AddInode(t, id, meta)) && Childless(AddInode(t, id, meta), id)
  {
    AddInodeLedger(t, pend, id, meta);
    var t2 := AddInode(t, id, meta);
    assert forall p :: Lookup(t2, p) == Lookup(t, p);
  }

  lemma MirrorDrop(v: PathView, t: Tree, pend: multiset<Id>, id: Id)
    requires WellFormed(t, pend) && Mirrors(v, t) && id in pend && id != t.root
    requires t.inodes[id].nlink == 1 ==> Childless(t, id)
    ensures Drop(t, id) == Some(DropComposite(t, id))
    ensures WellFormed(DropComposite(t, id), pend - multiset{id}) && Mirrors(v, DropComposite(t, id))
    ensures DropComposite(t, id).dirents == t.dirents
  {
    DropLedger(t, pend, id);
    var t2 := DropComposite(t, id);
    forall p | p in v ensures v[p].id in t2.inodes && t2.inodes[v[p].id].meta == v[p].meta {
      if v[p].id == id && p != [] {
        ParentInView(v, t, pend, p);
        assert KeyOf(v, p) in Refs(t, id);
      }
    }
    assert forall p :: Lookup(t2, p) == Lookup(t, p);
  }

  lemma MirrorChmod(v: PathView, t: Tree, pend: multiset<Id>, id: Id, mode: int)
    requires WellFormed(t, pend) && Mirrors(v, t)
    ensures WellFormed(Chmod(t, id, mode), pend)
    ensures Mirrors(ApplyChange(v, PatchMode(id, mode)), Chmod(t, id, mode))
  {
    ChmodLedger(t, pend, id, mode);
    assert forall p :: Lookup(Chmod(t, id, mode), p) == Lookup(t, p);
  }

  lemma MirrorIncrement(v: PathView, t: Tree, pend: multiset<Id>, id: Id)
    requires WellFormed(t, pend) && Mirrors(v, t) && id in t.inodes && t.inodes[id].meta.kind != Directory
    ensures WellFormed(SetNlink(t, id, t.inodes[id].nlink + 1), pend + multiset{id})
    ensures Mirrors(v, SetNlink(t, id, t.inodes[id].nlink + 1))
    ensures Childless(t, id)
  {
    IncrementLedger(t, pend, id);
    assert forall p :: Lookup(SetNlink(t, id, t.inodes[id].nlink + 1), p) == Lookup(t, p);
  }

  /** Removing an entry under a directory that no cached path reaches changes nothing cached. */
  lemma MirrorUnlinkHidden(v: PathView, t: Tree, pend: multiset<Id>, k: Key)
    requires WellFormed(t, pend) && Mirrors(v, t) && k in t.dirents
    requires forall p :: p in v ==> v[p].id != k.0
    ensures WellFormed(Unlink(t, k), pend + multiset{t.dirents[k]}) && t.dirents[k] != t.root
    ensures Mirrors(v, Unlink(t, k))
  {
    UnlinkLedger(t, pend, k);
    forall p ensures Lookup(Unlink(t, k), p) == Lookup(t, p) {
      LookupWithoutHidden(v, t, k, p);
    }
  }

  lemma {:induction false} LookupWithoutHidden(v: PathView, t: Tree, k: Key, p: Path)
    requires Mirrors(v, t) && forall q :: q in v ==> v[q].id != k.0
    ensures Lookup(Unlink(t, k), p) == Lookup(t, p)
    decreases |p|
  {
    if p != [] {
      LookupWithoutHidden(v, t, k, ParentOf(p));
      assert Lookup(t, ParentOf(p)).Some? ==> ParentOf(p) in v;
    }
  }

  // ── Folding a list of changes ──────────────────────────────────────────────

  lemma {:induction false} ApplyChangesConcat(v: PathView, a: seq<Change>, b: seq<Change>)
    ensures ApplyChanges(v, a + b) == ApplyChanges(ApplyChanges(v, a), b)
    decreases |b|
  {
    if b == [] {
      assert a + b == a;
    } else {
      assert (a + b)[..|a + b| - 1] == a + b[..|b| - 1];
      ApplyChangesConcat(v, a, b[..|b| - 1]);
    }
  }

  function Deletes(ps: seq<Path>): (cs: seq<Change>)
    ensures |cs| == |ps|
  {
    seq(|ps|, i requires 0 <= i < |ps| => Delete(ps[i]))
  }

  lemma {:induction false} ApplyDeletes(v: PathView, ps: seq<Path>)
    ensures ApplyChanges(v, Deletes(ps)) == map p | p in v && p !in ps :: v[p]
  {
    if ps != [] {
      var init := ps[..|ps| - 1];
      assert Deletes(ps)[..|ps| - 1] == Deletes(init);
      ApplyDeletes(v, init);
      assert ps == init + [ps[|ps| - 1]];
    }
  }

  lemma {:induction false} ApplyPuts(v: PathView, cs: seq<Change>, p: Path)
    requires forall i :: 0 <= i < |cs| ==> cs[i].Put?
    requires forall i, j :: 0 <= i < j < |cs| ==> cs[i].path != cs[j].path
    ensures (forall i :: 0 <= i < |cs| ==> cs[i].path != p) ==>
              (p in ApplyChanges(v, cs) <==> p in v) && (p in v ==> ApplyChanges(v, cs)[p] == v[p])
    ensures forall i :: 0 <= i < |cs| && cs[i].path == p ==>
              p in ApplyChanges(v, cs) && ApplyChanges(v, cs)[p] == cs[i].entry
    decreases |cs|
  {
    if cs != [] { ApplyPuts(v, cs[..|cs| - 1], p); }
  }
}
