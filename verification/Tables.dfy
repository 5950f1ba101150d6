/** The two namespace tables (`inodes`, `dirents`) of one sandbox, the SQL statements that change
    them, and the law that ties the link counts to the directory entries.

    Every statement shifts a ledger of "pending" links: `nlink` of an inode always equals the number
    of directory entries that name it plus the links that the running operation still has to place or
    drop. The root holds one such link for ever, because no directory entry names it. */
module Tables {
  import opened Options

  type Id = int
  type Name = string
  type Path = seq<Name>
  type Key = (Id, Name)
  type Digest = seq<int>

  datatype Kind = File | Directory | Symlink
  datatype Meta = Meta(kind: Kind, mode: int, size: nat, sha: Option<Digest>, target: Option<string>)
  datatype Inode = Inode(meta: Meta, nlink: int)
  datatype Tree = Tree(root: Id, inodes: map<Id, Inode>, dirents: map<Key, Id>)

  /** A write transaction that holds the sandbox lock: the tables it sees, the sandbox version, and
      the version it last set itself (`app.sandbox_epoch`). */
  datatype Tx = Tx(tree: Tree, version: nat, local: nat)

  // ── The statements ─────────────────────────────────────────────────────────

  /** A statement passes the fence when the version is the expected one, or when it is newer and this
      very transaction made it so; passing advances the version. */
  function FenceAndAdvance(tx: Tx, expected: nat): Option<Tx> {
    if tx.version == expected || (tx.version > expected && tx.version == tx.local)
    then Some(tx.(version := tx.version + 1, local := tx.version + 1))
    else None
  }

  function AddInode(t: Tree, id: Id, meta: Meta): Tree {
    t.(inodes := t.inodes[id := Inode(meta, 1)])
  }

  function Link(t: Tree, k: Key, id: Id): Tree {
    t.(dirents := t.dirents[k := id])
  }

  function Unlink(t: Tree, k: Key): Tree {
    t.(dirents := t.dirents - {k})
  }

  function SetNlink(t: Tree, id: Id, n: int): Tree
    requires id in t.inodes
  {
    t.(inodes := t.inodes[id := t.inodes[id].(nlink := n)])
  }

  /** Deleting an inode row cascades to the directory entries under it and to those that name it. */
  function RemoveInode(t: Tree, id: Id): Tree {
    t.(inodes := t.inodes - {id},
       dirents := map k | k in t.dirents && k.0 != id && t.dirents[k] != id :: t.dirents[k])
  }

  /** `decrementNlink` followed by `deleteInode` when the count reached zero. */
  function Drop(t: Tree, id: Id): Option<Tree> {
    if id !in t.inodes then None
    else if t.inodes[id].nlink == 1 then Some(RemoveInode(t, id))
    else Some(SetNlink(t, id, t.inodes[id].nlink - 1))
  }

  /** The split delete/decrement of the composite statements, which touch each inode row once. */
  function DropComposite(t: Tree, id: Id): Tree {
    if id !in t.inodes then t
    else if t.inodes[id].nlink <= 1 then RemoveInode(t, id)
    else SetNlink(t, id, t.inodes[id].nlink - 1)
  }

  function CreateInode(tx: Tx, id: Id, meta: Meta, expected: nat): Option<Tx> {
    match FenceAndAdvance(tx, expected)
    case None => None
    case Some(f) => Some(f.(tree := AddInode(f.tree, id, meta)))
  }

  /** Selects from the parent's inode row, so a missing parent inserts nothing and does not fail. */
  function InsertDirent(tx: Tx, k: Key, id: Id): Option<Tx> {
    if k.0 !in tx.tree.inodes then Some(tx)
    else if k in tx.tree.dirents || id !in tx.tree.inodes then None
    else Some(tx.(tree := Link(tx.tree, k, id)))
  }

  /** Insert or replace; the entry that was replaced comes back. */
  function UpsertDirent(tx: Tx, k: Key, id: Id): Option<(Tx, Option<Id>)> {
    if k.0 !in tx.tree.inodes || id !in tx.tree.inodes then None
    else Some((tx.(tree := Link(tx.tree, k, id)), Find(tx.tree, k)))
  }

  function Find(t: Tree, k: Key): Option<Id> {
    if k in t.dirents then Some(t.dirents[k]) else None
  }

  function DeleteDirent(tx: Tx, k: Key, expected: nat): Option<(Tx, Id)> {
    match FenceAndAdvance(tx, expected)
    case None => None
    case Some(f) =>
      if k !in f.tree.dirents then None
      else Some((f.(tree := Unlink(f.tree, k)), f.tree.dirents[k]))
  }

  function DropTx(tx: Tx, id: Id): Option<Tx> {
    match Drop(tx.tree, id)
    case None => None
    case Some(t) => Some(tx.(tree := t))
  }

  function UpdateMode(tx: Tx, id: Id, mode: int, expected: nat): Option<Tx> {
    match FenceAndAdvance(tx, expected)
    case None => None
    case Some(f) => Some(f.(tree := Chmod(f.tree, id, mode)))
  }

  function Chmod(t: Tree, id: Id, mode: int): Tree {
    if id in t.inodes
    then t.(inodes := t.inodes[id := t.inodes[id].(meta := t.inodes[id].meta.(mode := mode))])
    else t
  }

  function IncrementNlink(tx: Tx, id: Id, expected: nat): Option<Tx> {
    match FenceAndAdvance(tx, expected)
    case None => None
    case Some(f) =>
      Some(if id in f.tree.inodes
           then f.(tree := SetNlink(f.tree, id, f.tree.inodes[id].nlink + 1)) else f)
  }

  function MkdirComposite(tx: Tx, k: Key, mode: int, id: Id, expected: nat): Option<Tx> {
    match FenceAndAdvance(tx, expected)
    case None => None
    case Some(f) =>
      if k.0 !in f.tree.inodes || k in f.tree.dirents then None
      else Some(f.(tree := Link(AddInode(f.tree, id, Meta(Directory, mode, 0, None, None)), k, id)))
  }

  function WriteFileComposite(tx: Tx, k: Key, meta: Meta, id: Id, expected: nat): Option<Tx> {
    match FenceAndAdvance(tx, expected)
    case None => None
    case Some(f) =>
      if k.0 !in f.tree.inodes then None
      else
        var prior := Find(f.tree, k);
        var t := Link(AddInode(f.tree, id, meta), k, id);
        Some(f.(tree := if prior.Some? then DropComposite(t, prior.value) else t))
  }

  function RmComposite(tx: Tx, k: Key, expected: nat): Option<Tx> {
    match FenceAndAdvance(tx, expected)
    case None => None
    case Some(f) =>
      if k !in f.tree.dirents then None
      else Some(f.(tree := DropComposite(Unlink(f.tree, k), f.tree.dirents[k])))
  }

  /** Two fenced statements: free the destination slot, then rename the source into it. */
  function MvComposite(tx: Tx, src: Key, dest: Key, expected: nat): Option<Tx> {
    match FenceAndAdvance(tx, expected)
    case None => None
    case Some(f) =>
      var prior := Find(f.tree, dest);
      var t := if prior.Some? then DropComposite(Unlink(f.tree, dest), prior.value) else f.tree;
      match FenceAndAdvance(f.(tree := t), expected)
      case None => None
      case Some(g) =>
        if src !in t.dirents || dest.0 !in t.inodes then None
        else Some(g.(tree := Link(Unlink(t, src), dest, t.dirents[src])))
  }

  /** The fallback rename of a dialect without the composite. */
  function MoveDirent(tx: Tx, src: Key, dest: Key, expected: nat): Option<Tx> {
    match FenceAndAdvance(tx, expected)
    case None => None
    case Some(f) =>
      var t := Unlink(f.tree, dest);
      if src !in t.dirents || dest.0 !in t.inodes then None
      else Some(f.(tree := Link(Unlink(t, src), dest, t.dirents[src])))
  }

  // ── Walking the tables ─────────────────────────────────────────────────────

  /** `parentOf`: the root is its own parent. */
  function ParentOf(p: Path): Path {
    if p == [] then [] else p[..|p| - 1]
  }

  /** `nameOf`: the root's name is the empty string. */
  function NameOf(p: Path): Name {
    if p == [] then "" else p[|p| - 1]
  }

  /** The inode that the directory entries lead to from `start`. */
  function Walk(d: map<Key, Id>, start: Id, p: Path): Option<Id>
    decreases |p|
  {
    if p == [] then Some(start) else
    match Walk(d, start, ParentOf(p))
    case None => None
    case Some(e) => if (e, NameOf(p)) in d then Some(d[(e, NameOf(p))]) else None
  }

  function Lookup(t: Tree, p: Path): Option<Id> {
    Walk(t.dirents, t.root, p)
  }

  // ── The link ledger ────────────────────────────────────────────────────────

  ghost function Refs(t: Tree, id: Id): set<Key> {
    set k | k in t.dirents && t.dirents[k] == id
  }

  /** The link count of an inode is the entries that name it plus its links in flight; rows with no
      link left are gone, and a directory has exactly one. */
  ghost predicate Balanced(t: Tree, pend: multiset<Id>, id: Id)
    requires id in t.inodes
  {
    && t.inodes[id].nlink == |Refs(t, id)| + pend[id]
    && t.inodes[id].nlink >= 1
    && (t.inodes[id].meta.kind == Directory ==> t.inodes[id].nlink == 1)
  }

  ghost predicate Anchored(t: Tree, k: Key)
    requires k in t.dirents
  {
    k.0 in t.inodes && t.inodes[k.0].meta.kind == Directory && t.dirents[k] in t.inodes
  }

  /** Everything the tables keep while `pend` links are in flight. */
  ghost predicate WellFormed(t: Tree, pend: multiset<Id>) {
    && pend[t.root] == 1
    && t.root in t.inodes && t.inodes[t.root].meta.kind == Directory
    && (forall k :: k in t.dirents ==> Anchored(t, k))
    && (forall id :: id in t.inodes ==> Balanced(t, pend, id))
    && (forall id :: id in pend ==> id in t.inodes)
  }

  /** Well-formed with nothing in flight: the state between two operations. */
  ghost predicate Consistent(t: Tree) {
    WellFormed(t, multiset{t.root})
  }

  ghost predicate Childless(t: Tree, id: Id) {
    forall k :: k in t.dirents ==> k.0 != id
  }

  lemma SameRefs(t: Tree, t2: Tree)
    requires t2.dirents == t.dirents
    ensures forall id :: Refs(t2, id) == Refs(t, id)
  {
  }

  lemma AddInodeLedger(t: Tree, pend: multiset<Id>, id: Id, meta: Meta)
    requires WellFormed(t, pend) && id !in t.inodes
    ensures WellFormed(AddInode(t, id, meta), pend + multiset{id})
    ensures Childless(t, id)
  {
    var t2, pend2 := AddInode(t, id, meta), pend + multiset{id};
    SameRefs(t, t2);
    forall k | k in t.dirents ensures k.0 != id && t.dirents[k] != id { assert Anchored(t, k); }
    assert Refs(t, id) == {};
    assert id !in pend;
    forall i | i in t2.inodes ensures Balanced(t2, pend2, i) {
      if i != id { assert Balanced(t, pend, i); }
    }
    forall k | k in t2.dirents ensures Anchored(t2, k) { assert Anchored(t, k); }
  }

  lemma LinkedRefs(t: Tree, k: Key, id: Id, i: Id)
    requires k !in t.dirents
    ensures |Refs(Link(t, k, id), i)| == |Refs(t, i)| + if i == id then 1 else 0
  {
    assert Refs(Link(t, k, id), i) == if i == id then Refs(t, i) + {k} else Refs(t, i);
  }

  lemma LinkLedger(t: Tree, pend: multiset<Id>, k: Key, id: Id)
    requires WellFormed(t, pend) && k !in t.dirents && id in pend && id != t.root
    requires k.0 in t.inodes && t.inodes[k.0].meta.kind == Directory
    ensures WellFormed(Link(t, k, id), pend - multiset{id})
  {
    var t2, pend2 := Link(t, k, id), pend - multiset{id};
    forall i | i in t2.inodes ensures Balanced(t2, pend2, i) {
      assert Balanced(t, pend, i);
      LinkedRefs(t, k, id, i);
    }
    forall j | j in t2.dirents ensures Anchored(t2, j) {
      if j != k { assert Anchored(t, j); }
    }
  }

  lemma UnlinkedRefs(t: Tree, k: Key, i: Id)
    requires k in t.dirents
    ensures |Refs(Unlink(t, k), i)| == |Refs(t, i)| - if i == t.dirents[k] then 1 else 0
  {
    assert k in Refs(t, t.dirents[k]);
    assert Refs(Unlink(t, k), i) == if i == t.dirents[k] then Refs(t, i) - {k} else Refs(t, i);
  }

  lemma UnlinkLedger(t: Tree, pend: multiset<Id>, k: Key)
    requires WellFormed(t, pend) && k in t.dirents
    ensures WellFormed(Unlink(t, k), pend + multiset{t.dirents[k]})
    ensures t.dirents[k] != t.root
  {
    var t2, id, pend2 := Unlink(t, k), t.dirents[k], pend + multiset{t.dirents[k]};
    RootHasNoName(t, pend, k);
    assert Anchored(t, k);
    forall i | i in t2.inodes ensures Balanced(t2, pend2, i) {
      assert Balanced(t, pend, i);
      UnlinkedRefs(t, k, i);
    }
    forall j | j in t2.dirents ensures Anchored(t2, j) { assert Anchored(t, j); }
  }

  lemma DropLedger(t: Tree, pend: multiset<Id>, id: Id)
    requires WellFormed(t, pend) && id in pend && id != t.root
    requires t.inodes[id].nlink == 1 ==> Childless(t, id)
    ensures Drop(t, id).Some? && Drop(t, id).value == DropComposite(t, id)
    ensures WellFormed(DropComposite(t, id), pend - multiset{id})
    ensures DropComposite(t, id).dirents == t.dirents
  {
    var t2, pend2 := DropComposite(t, id), pend - multiset{id};
    assert Balanced(t, pend, id);
    if t.inodes[id].nlink == 1 {
      assert Refs(t, id) == {};
      forall k | k in t.dirents ensures t.dirents[k] != id { assert k in Refs(t, t.dirents[k]); }
      assert t2.dirents == t.dirents;
      assert id !in pend2;
    }
    SameRefs(t, t2);
    forall i | i in t2.inodes ensures Balanced(t2, pend2, i) { assert Balanced(t, pend, i); }
    forall j | j in t2.dirents ensures Anchored(t2, j) { assert Anchored(t, j); }
  }

  /** Dropping a link keeps the ledger exactly unless it was the last one of an inode that entries still
      hang under: deleting the row then takes those entries along, and their inodes' counts stay. */
  lemma DropLedgerExactly(t: Tree, pend: multiset<Id>, id: Id)
    requires WellFormed(t, pend) && id in pend && id != t.root
    ensures Drop(t, id) == Some(DropComposite(t, id))
    ensures WellFormed(DropComposite(t, id), pend - multiset{id}) <==> (t.inodes[id].nlink == 1 ==> Childless(t, id))
  {
    assert Balanced(t, pend, id);
    if t.inodes[id].nlink == 1 ==> Childless(t, id) {
      DropLedger(t, pend, id);
    } else {
      var k :| k in t.dirents && k.0 == id;
      OrphanUnbalanced(t, pend, id, k);
    }
  }

  lemma OrphanUnbalanced(t: Tree, pend: multiset<Id>, id: Id, k: Key)
    requires WellFormed(t, pend) && id in pend && t.inodes[id].nlink == 1 && k in t.dirents && k.0 == id
    ensures !WellFormed(RemoveInode(t, id), pend - multiset{id})
  {
    var t2, child := RemoveInode(t, id), t.dirents[k];
    assert Balanced(t, pend, id) && Anchored(t, k);
    assert Balanced(t, pend, child);
    assert Refs(t, id) == {};
    assert k in Refs(t, child);
    assert child != id;
    assert Refs(t2, child) <= Refs(t, child) - {k};
    SubsetSize(Refs(t2, child), Refs(t, child) - {k});
    assert !Balanced(t2, pend - multiset{id}, child);
  }

  lemma IncrementLedger(t: Tree, pend: multiset<Id>, id: Id)
    requires WellFormed(t, pend) && id in t.inodes && t.inodes[id].meta.kind != Directory
    ensures WellFormed(SetNlink(t, id, t.inodes[id].nlink + 1), pend + multiset{id})
  {
    var t2 := SetNlink(t, id, t.inodes[id].nlink + 1);
    SameRefs(t, t2);
    forall i | i in t2.inodes ensures Balanced(t2, pend + multiset{id}, i) { assert Balanced(t, pend, i); }
    forall j | j in t2.dirents ensures Anchored(t2, j) { assert Anchored(t, j); }
  }

  lemma ChmodLedger(t: Tree, pend: multiset<Id>, id: Id, mode: int)
    requires WellFormed(t, pend)
    ensures WellFormed(Chmod(t, id, mode), pend)
  {
    var t2 := Chmod(t, id, mode);
    SameRefs(t, t2);
    forall i | i in t2.inodes ensures Balanced(t2, pend, i) { assert Balanced(t, pend, i); }
    forall j | j in t2.dirents ensures Anchored(t2, j) { assert Anchored(t, j); }
  }

  // ── What a walk reaches ────────────────────────────────────────────────────

  lemma RefsAtMostOne(t: Tree, pend: multiset<Id>, k1: Key, k2: Key)
    requires WellFormed(t, pend) && k1 in t.dirents && k2 in t.dirents && t.dirents[k1] == t.dirents[k2]
    requires t.inodes[t.dirents[k1]].meta.kind == Directory
    ensures k1 == k2
  {
    var id := t.dirents[k1];
    assert Anchored(t, k1) && Balanced(t, pend, id);
    assert {k1, k2} <= Refs(t, id);
    if k1 != k2 {
      SubsetSize({k1, k2}, Refs(t, id));
      assert false;
    }
  }

  lemma SubsetSize<T>(a: set<T>, b: set<T>)
    requires a <= b
    ensures |a| <= |b|
  {
    assert b == a + (b - a);
  }

  lemma RootHasNoName(t: Tree, pend: multiset<Id>, k: Key)
    requires WellFormed(t, pend) && k in t.dirents
    ensures t.dirents[k] != t.root
  {
    assert Balanced(t, pend, t.root);
    assert k in Refs(t, t.dirents[k]);
  }

  lemma LookupLast(t: Tree, p: Path)
    requires p != [] && Lookup(t, p).Some?
    ensures Lookup(t, ParentOf(p)).Some?
    ensures (Lookup(t, ParentOf(p)).value, NameOf(p)) in t.dirents
    ensures t.dirents[(Lookup(t, ParentOf(p)).value, NameOf(p))] == Lookup(t, p).value
  {
  }

  /** A directory is reached by one path only. */
  lemma {:induction false} DirectoryPathUnique(t: Tree, pend: multiset<Id>, p: Path, q: Path)
    requires WellFormed(t, pend) && Lookup(t, p).Some? && Lookup(t, p) == Lookup(t, q)
    requires Lookup(t, p).value in t.inodes && t.inodes[Lookup(t, p).value].meta.kind == Directory
    ensures p == q
    decreases |p|
  {
    if p == [] || q == [] {
      if p != [] { LookupLast(t, p); RootHasNoName(t, pend, (Lookup(t, ParentOf(p)).value, NameOf(p))); }
      if q != [] { LookupLast(t, q); RootHasNoName(t, pend, (Lookup(t, ParentOf(q)).value, NameOf(q))); }
    } else {
      LookupLast(t, p);
      LookupLast(t, q);
      var k1 := (Lookup(t, ParentOf(p)).value, NameOf(p));
      var k2 := (Lookup(t, ParentOf(q)).value, NameOf(q));
      RefsAtMostOne(t, pend, k1, k2);
      DirectoryPathUnique(t, pend, ParentOf(p), ParentOf(q));
      assert p == ParentOf(p) + [NameOf(p)];
      assert q == ParentOf(q) + [NameOf(q)];
    }
  }

  /** `t` and `t2` differ at most in the directory entry that `at` names. */
  ghost predicate DifferAt(t: Tree, t2: Tree, at: Path) {
    && t2.root == t.root && at != [] && Lookup(t, ParentOf(at)).Some?
    && var d := Lookup(t, ParentOf(at)).value;
    && d in t.inodes && t.inodes[d].meta.kind == Directory
    && forall k :: k != (d, NameOf(at)) ==> Find(t2, k) == Find(t, k)
  }

  /** Changing one directory entry changes no lookup outside its subtree. */
  lemma {:induction false} LookupOutside(t: Tree, pend: multiset<Id>, t2: Tree, at: Path, p: Path)
    requires WellFormed(t, pend) && DifferAt(t, t2, at) && !(at <= p)
    ensures Lookup(t2, p) == Lookup(t, p)
    decreases |p|
  {
    if p != [] {
      var q := ParentOf(p);
      StepDown(t, p);
      StepDown(t2, p);
      assert at <= q ==> at <= p;
      hide WellFormed, Lookup;
      LookupOutside(t, pend, t2, at, q);
      if Lookup(t, q).Some? {
        var d, e := Lookup(t, ParentOf(at)).value, Lookup(t, q).value;
        if d == e && NameOf(p) == NameOf(at) {
          DirectoryPathUnique(t, pend, ParentOf(at), q);
          SameParentAndName(at, p);
        }
        assert Find(t2, (e, NameOf(p))) == Find(t, (e, NameOf(p)));
      }
    }
  }

  lemma StepDown(t: Tree, p: Path)
    requires p != []
    ensures Lookup(t, p) == match Lookup(t, ParentOf(p)) case None => None case Some(d) => Find(t, (d, NameOf(p)))
  {
  }

  lemma SameParentAndName(p: Path, q: Path)
    requires p != [] && q != [] && ParentOf(p) == ParentOf(q) && NameOf(p) == NameOf(q)
    ensures p == q
  {
    assert p == ParentOf(p) + [NameOf(p)] && q == ParentOf(q) + [NameOf(q)];
  }

  lemma {:induction false} WalkConcat(d: map<Key, Id>, start: Id, p: Path, q: Path)
    ensures Walk(d, start, p + q) ==
            match Walk(d, start, p) case None => None case Some(e) => Walk(d, e, q)
    decreases |q|
  {
    if q == [] {
      assert p + q == p;
    } else {
      assert (p + q)[..|p + q| - 1] == p + ParentOf(q);
      WalkConcat(d, start, p, ParentOf(q));
    }
  }

  lemma {:induction false} WalkFromChildless(t: Tree, id: Id, q: Path)
    requires Childless(t, id) && q != []
    ensures Walk(t.dirents, id, q).None?
    decreases |q|
  {
    if |q| > 1 { WalkFromChildless(t, id, ParentOf(q)); }
  }

  lemma LookupUnder(t: Tree, at: Path, p: Path)
    requires at <= p
    ensures Lookup(t, p) == match Lookup(t, at) case None => None case Some(e) => Walk(t.dirents, e, p[|at|..])
  {
    assert p == at + p[|at|..];
    WalkConcat(t.dirents, t.root, at, p[|at|..]);
  }

  // ── Composite statements against their fallbacks ───────────────────────────

  lemma DropAgrees(t: Tree, id: Id)
    requires id in t.inodes && t.inodes[id].nlink >= 1
    ensures Drop(t, id) == Some(DropComposite(t, id))
  {
  }

  /** `rmComposite` leaves what `deleteDirent`, `decrementNlink` and `deleteInode` leave. */
  lemma RmCompositeRefinesFallback(tx: Tx, k: Key, expected: nat)
    requires Consistent(tx.tree)
    ensures RmComposite(tx, k, expected) ==
            match DeleteDirent(tx, k, expected) case None => None case Some(r) => DropTx(r.0, r.1)
  {
    if k in tx.tree.dirents {
      assert Anchored(tx.tree, k);
      NlinkPositive(tx.tree, multiset{tx.tree.root}, tx.tree.dirents[k]);
      DropAgrees(Unlink(tx.tree, k), tx.tree.dirents[k]);
    }
  }

  /** `writeFileComposite` leaves what `createInode`, `upsertDirent` and the drop of the replaced
      inode leave; `id` is the one the sequence hands out. */
  lemma WriteFileCompositeRefinesFallback(tx: Tx, k: Key, meta: Meta, id: Id, expected: nat)
    requires Consistent(tx.tree) && id !in tx.tree.inodes && id != k.0
    ensures WriteFileComposite(tx, k, meta, id, expected) ==
            match CreateInode(tx, id, meta, expected)
            case None => None
            case Some(c) =>
              match UpsertDirent(c, k, id)
              case None => None
              case Some(r) => if r.1.Some? then DropTx(r.0, r.1.value) else Some(r.0)
  {
    if k in tx.tree.dirents {
      assert Anchored(tx.tree, k);
      NlinkPositive(tx.tree, multiset{tx.tree.root}, tx.tree.dirents[k]);
      DropAgrees(Link(AddInode(tx.tree, id, meta), k, id), tx.tree.dirents[k]);
    }
  }

  lemma RelinkShape(t: Tree, k: Key, meta: Meta, id: Id)
    ensures Link(AddInode(Unlink(t, k), id, meta), k, id) == Link(AddInode(t, id, meta), k, id)
  {
  }

  /** The destination's last link goes, and the source or the destination directory hangs under it. */
  predicate CutsItself(t: Tree, src: Key, dest: Key) {
    && src in t.dirents && src != dest && dest.0 in t.inodes
    && dest in t.dirents && t.dirents[dest] in t.inodes && t.inodes[t.dirents[dest]].nlink == 1
    && (src.0 == t.dirents[dest] || dest.0 == t.dirents[dest])
  }

  /** The tables after `moveDirent` and the drop of the overwritten inode. */
  function MvFallback(tx: Tx, src: Key, dest: Key, expected: nat): Option<Tree> {
    match MoveDirent(tx, src, dest, expected)
    case None => None
    case Some(r) => if dest in tx.tree.dirents then Drop(r.tree, tx.tree.dirents[dest]) else Some(r.tree)
  }

  function TreeOf(tx: Option<Tx>): Option<Tree> {
    match tx case None => None case Some(r) => Some(r.tree)
  }

  /** `mvComposite` succeeds when `moveDirent` and the drop of the overwritten inode do, and leaves the
      same tables, exactly unless the move would cut itself off: the composite frees the destination
      first, and the cascade takes the source or the destination directory along. Only the version
      differs, because the composite advances it twice. */
  lemma MvCompositeRefinesFallback(tx: Tx, src: Key, dest: Key, expected: nat)
    requires Consistent(tx.tree) && FenceAndAdvance(tx, expected).Some?
    ensures TreeOf(MvComposite(tx, src, dest, expected)) == MvFallback(tx, src, dest, expected) <==>
              !CutsItself(tx.tree, src, dest)
  {
    var t := tx.tree;
    if dest in t.dirents {
      assert Anchored(t, dest);
      NlinkPositive(t, multiset{t.root}, t.dirents[dest]);
      if src in t.dirents && src != dest && dest.0 in t.inodes {
        if t.inodes[t.dirents[dest]].nlink > 1 {
          MvOverShared(t, src, dest);
        } else {
          OnlyName(t, src, dest);
          MvOverLast(t, src, dest);
        }
      }
    } else {
      assert Unlink(t, dest) == t;
    }
  }

  /** The two orders, when the overwritten inode keeps other links. */
  lemma MvOverShared(t: Tree, src: Key, dest: Key)
    requires src in t.dirents && dest in t.dirents && src != dest && dest.0 in t.inodes
    requires t.dirents[dest] in t.inodes && t.inodes[t.dirents[dest]].nlink > 1
    ensures !CutsItself(t, src, dest) && MvCommutes(t, src, dest)
  {
  }

  ghost predicate MvCommutes(t: Tree, src: Key, dest: Key)
    requires src in t.dirents && dest in t.dirents
  {
    var freed := DropComposite(Unlink(t, dest), t.dirents[dest]);
    var moved := Link(Unlink(Unlink(t, dest), src), dest, t.dirents[src]);
    && src in freed.dirents && dest.0 in freed.inodes && freed.dirents[src] == t.dirents[src]
    && Drop(moved, t.dirents[dest]) == Some(Link(Unlink(freed, src), dest, t.dirents[src]))
  }

  lemma OnlyName(t: Tree, src: Key, dest: Key)
    requires Consistent(t) && src in t.dirents && dest in t.dirents && src != dest
    requires t.dirents[dest] in t.inodes && t.inodes[t.dirents[dest]].nlink == 1
    ensures t.dirents[src] != t.dirents[dest]
  {
    var prior := t.dirents[dest];
    assert Balanced(t, multiset{t.root}, prior);
    if t.dirents[src] == prior { SubsetSize({src, dest}, Refs(t, prior)); }
  }

  lemma MvOverLast(t: Tree, src: Key, dest: Key)
    requires src in t.dirents && dest in t.dirents && src != dest && dest.0 in t.inodes
    requires t.dirents[dest] in t.inodes && t.inodes[t.dirents[dest]].nlink == 1 && t.dirents[src] != t.dirents[dest]
    ensures var freed := DropComposite(Unlink(t, dest), t.dirents[dest]);
            var moved := Link(Unlink(Unlink(t, dest), src), dest, t.dirents[src]);
            && (CutsItself(t, src, dest) <==> src !in freed.dirents || dest.0 !in freed.inodes)
            && Drop(moved, t.dirents[dest]).Some? && (!CutsItself(t, src, dest) ==> MvCommutes(t, src, dest))
  {
    var prior := t.dirents[dest];
    var freed := DropComposite(Unlink(t, dest), prior);
    var moved := Link(Unlink(Unlink(t, dest), src), dest, t.dirents[src]);
    if !CutsItself(t, src, dest) {
      assert RemoveInode(moved, prior).dirents == Link(Unlink(freed, src), dest, t.dirents[src]).dirents;
    }
  }

  lemma NlinkPositive(t: Tree, pend: multiset<Id>, id: Id)
    requires WellFormed(t, pend) && id in t.inodes
    ensures t.inodes[id].nlink >= 1
  {
    assert Balanced(t, pend, id);
  }

}
