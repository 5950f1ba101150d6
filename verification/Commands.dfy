/** The namespace operations: what each checks in the cached tree, the statements it runs, and the
    changes it publishes to the cache. The law proved here is that statements and published changes
    agree: a view that is the tables' tree stays the tables' tree. */
module Commands {
  import opened Options
  import opened Tables
  import opened View

  datatype Error = ENOENT | EEXIST | EISDIR | ENOTDIR | ENOTEMPTY | EINVAL | EPERM

  /** Modes a plan has read already, which need not be the cached ones any more when it runs. */
  type Modes = map<Path, int>

  /** `order` and `hidden` list cached paths in the order in which the cache happens to iterate. A `blind`
      segment of `mkdir -p` has looked whether its directory exists already, and does not look again. */
  datatype Cmd =
    | Mkdir(path: Path, mode: int)
    | MkdirSegment(path: Path, mode: int, blind: bool)
    | WriteFile(path: Path, createMode: Option<int>, size: nat, sha: Digest)
    | Rm(path: Path, recursive: bool, order: seq<Path>)
    | Cp(src: Path, dest: Path, recursive: bool, order: seq<Path>, modes: Modes)
    | Mv(src: Path, dest: Path, order: seq<Path>, hidden: seq<Path>)
    | ChangeMode(path: Path, mode: int)
    | MakeSymlink(target: string, path: Path)
    | HardLink(existing: Path, path: Path)

  datatype RmStep = RmStep(id: Id, entry: Option<Key>)
  datatype CpStep = CpStep(dest: Path, existing: Option<Id>, meta: Meta)

  /** One mutation as the journal keeps it: every path is already resolved to inode ids. */
  datatype Op =
    | MkdirOp(key: Key, mode: int)
    | CreateOp(key: Key, meta: Meta)
    | WriteOp(key: Key, meta: Meta)
    | RmOp(key: Key)
    | RmTreeOp(top: Option<Key>, steps: seq<RmStep>)
    | CpOp(key: Key, meta: Meta)
    | CpTreeOp(plan: seq<CpStep>)
    | MvOp(source: Key, dest: Key)
    | ChmodOp(id: Id, mode: int)
    | LinkOp(id: Id, key: Key)

  datatype Planned = Fails(error: Error) | Nothing | Does(op: Op)

  const NEW_FILE_MODE := 420  // 0o644

  function Mints(op: Op): nat {
    match op
    case MkdirOp(_, _) => 1
    case CreateOp(_, _) => 1
    case WriteOp(_, _) => 1
    case CpOp(_, _) => 1
    case CpTreeOp(plan) => |plan|
    case _ => 0
  }

  // ── Planning against the cached tree ───────────────────────────────────────

  function RequireParent(v: PathView, p: Path): Option<Error> {
    if ParentOf(p) !in v then Some(ENOENT)
    else if v[ParentOf(p)].meta.kind != Directory then Some(ENOTDIR)
    else None
  }

  predicate HasChild(v: PathView, at: Path) {
    exists p :: p in v && |p| == |at| + 1 && at <= p
  }

  function EntryKey(v: PathView, p: Path): Option<Key> {
    if ParentOf(p) in v then Some((v[ParentOf(p)].id, NameOf(p))) else None
  }

  function RmPlan(v: PathView, at: Path, order: seq<Path>): (steps: seq<RmStep>)
    requires forall i :: 0 <= i < |order| ==> order[i] in v
    ensures |steps| == |order|
  {
    seq(|order|, i requires 0 <= i < |order| =>
      RmStep(v[order[i]].id, if order[i] == at then None else EntryKey(v, order[i])))
  }

  /** `dest + srcPath.slice(src.length)`. When `src` is the root the slice loses the separator, so the
      first component of the copied path is glued to the last one of `dest`. */
  function DestOf(src: Path, dest: Path, p: Path): Path
    requires src <= p
  {
    if src == [] && p != [] then ParentOf(dest) + [NameOf(dest) + p[0]] + p[1..]
    else dest + p[|src|..]
  }

  /** What a copy takes over: the source's metadata, with the mode it had when the copy read it. */
  function SeenMeta(m: Meta, modes: Modes, p: Path): Meta {
    if p in modes then m.(mode := modes[p]) else m
  }

  function CpPlan(v: PathView, src: Path, dest: Path, order: seq<Path>, modes: Modes): (steps: seq<CpStep>)
    requires forall i :: 0 <= i < |order| ==> order[i] in v && src <= order[i]
    ensures |steps| == |order|
  {
    seq(|order|, i requires 0 <= i < |order| =>
      var d := DestOf(src, dest, order[i]);
      CpStep(d, if ParentOf(d) in v then Some(v[ParentOf(d)].id) else None,
          SeenMeta(v[order[i]].meta, modes, order[i])))
  }

  /** The enumerations a command carries list the subtrees they stand for: `rm -r` sorts deepest
      first, `cp -r` shallowest first. */
  ghost predicate Lists(v: PathView, at: Path, order: seq<Path>) {
    && (forall p :: p in order <==> p in v && at <= p)
    && (forall i, j :: 0 <= i < j < |order| ==> order[i] != order[j])
  }

  ghost predicate Valid(v: PathView, cmd: Cmd) {
    match cmd
    case Rm(p, _, order) =>
      Lists(v, p, order) && forall i, j :: 0 <= i < j < |order| ==> |order[i]| >= |order[j]|
    case Cp(src, _, _, order, _) =>
      Lists(v, src, order) && forall i, j :: 0 <= i < j < |order| ==> |order[i]| <= |order[j]|
    case Mv(src, dest, order, hidden) => Lists(v, src, order) && Lists(v, dest, hidden)
    case _ => true
  }

  function WriteMeta(v: PathView, cmd: Cmd): Meta
    requires cmd.WriteFile?
  {
    var mode := if cmd.createMode.Some? then cmd.createMode.value
                else if cmd.path in v && v[cmd.path].meta.kind == File then v[cmd.path].meta.mode
                else NEW_FILE_MODE;
    Meta(File, mode, cmd.size, Some(cmd.sha), None)
  }

  function PlanOf(v: PathView, cmd: Cmd): Planned {
    match cmd
    case Mkdir(p, mode) =>
      if p in v then Fails(EEXIST)
      else if RequireParent(v, p).Some? then Fails(RequireParent(v, p).value)
      else Does(MkdirOp(KeyOf(v, p), mode))
    case MkdirSegment(p, mode, blind) =>
      if p == [] || (p in v && !blind) then Nothing
      else if RequireParent(v, p).Some? then Fails(RequireParent(v, p).value)
      else Does(CreateOp(KeyOf(v, p), Meta(Directory, mode, 0, None, None)))
    case WriteFile(p, _, _, _) =>
      if p in v && v[p].meta.kind == Directory then Fails(EISDIR)
      else if RequireParent(v, p).Some? then Fails(RequireParent(v, p).value)
      else Does(WriteOp(KeyOf(v, p), WriteMeta(v, cmd)))
    case Rm(p, recursive, order) => PlanRm(v, p, recursive, order)
    case Cp(src, dest, recursive, order, modes) => PlanCp(v, src, dest, recursive, order, modes)
    case Mv(src, dest, _, _) => PlanMv(v, src, dest)
    case ChangeMode(p, mode) =>
      if p !in v then Fails(ENOENT) else Does(ChmodOp(v[p].id, mode))
    case MakeSymlink(target, p) =>
      if RequireParent(v, p).Some? then Fails(RequireParent(v, p).value)
      else Does(CreateOp(KeyOf(v, p), SymlinkMeta(target)))
    case HardLink(existing, p) =>
      if existing !in v then Fails(ENOENT)
      else if v[existing].meta.kind == Directory then Fails(EPERM)
      else if p in v then Fails(EEXIST)
      else if RequireParent(v, p).Some? then Fails(RequireParent(v, p).value)
      else Does(LinkOp(v[existing].id, KeyOf(v, p)))
  }

  function SymlinkMeta(target: string): Meta {
    Meta(Symlink, 511, |target|, None, Some(target))
  }

  function PlanRm(v: PathView, p: Path, recursive: bool, order: seq<Path>): Planned {
    if p !in v then Fails(ENOENT)
    else if recursive && v[p].meta.kind == Directory then
      if forall i :: 0 <= i < |order| ==> order[i] in v
      then Does(RmTreeOp(EntryKey(v, p), RmPlan(v, p, order))) else Fails(ENOENT)
    else if v[p].meta.kind == Directory && HasChild(v, p) then Fails(ENOTEMPTY)
    else if ParentOf(p) !in v then Fails(ENOENT)
    else Does(RmOp(KeyOf(v, p)))
  }

  function PlanCp(v: PathView, src: Path, dest: Path, recursive: bool, order: seq<Path>, modes: Modes): Planned {
    if NameOf(dest) == "" then Fails(EISDIR)
    else if src !in v then Fails(ENOENT)
    else if v[src].meta.kind == Directory then
      if !recursive then Fails(EISDIR)
      else if RequireParent(v, dest).Some? then Fails(RequireParent(v, dest).value)
      else if forall i :: 0 <= i < |order| ==> order[i] in v && src <= order[i]
      then Does(CpTreeOp(CpPlan(v, src, dest, order, modes))) else Fails(ENOENT)
    else if dest in v && v[dest].meta.kind == Directory then Fails(EISDIR)
    else if RequireParent(v, dest).Some? then Fails(RequireParent(v, dest).value)
    else Does(CpOp(KeyOf(v, dest), SeenMeta(v[src].meta, modes, src)))
  }

  function PlanMv(v: PathView, src: Path, dest: Path): Planned {
    if src !in v || ParentOf(src) !in v then Fails(ENOENT)
    else if RequireParent(v, dest).Some? then Fails(RequireParent(v, dest).value)
    else if v[src].meta.kind == Directory && src <= dest then Fails(EINVAL)
    else if NameOf(dest) == "" then Fails(EISDIR)
    else if dest in v && v[dest].id == v[src].id then Nothing
    else if dest in v && v[dest].meta.kind == Directory && HasChild(v, dest) then Fails(ENOTEMPTY)
    else if dest in v && v[dest].meta.kind == Directory && v[src].meta.kind != Directory then Fails(EISDIR)
    else if dest in v && v[dest].meta.kind != Directory && v[src].meta.kind == Directory then Fails(ENOTDIR)
    else Does(MvOp(KeyOf(v, src), KeyOf(v, dest)))
  }

  /** The path changes published once the mutation is recorded or committed with inode ids `ids`. */
  function Changes(v: PathView, cmd: Cmd, ids: seq<Id>): seq<Change>
    requires PlanOf(v, cmd).Does? && |ids| == Mints(PlanOf(v, cmd).op)
  {
    match cmd
    case Mkdir(p, mode) => [Put(p, Entry(ids[0], Meta(Directory, mode, 0, None, None)))]
    case MkdirSegment(p, mode, _) => [Put(p, Entry(ids[0], Meta(Directory, mode, 0, None, None)))]
    case WriteFile(p, _, _, _) => [Put(p, Entry(ids[0], WriteMeta(v, cmd)))]
    case Rm(p, recursive, order) =>
      if recursive && v[p].meta.kind == Directory then Deletes(order) else [Delete(p)]
    case Cp(src, dest, _, order, modes) =>
      if v[src].meta.kind == Directory then CopyPuts(CpPlan(v, src, dest, order, modes), ids)
      else [Put(dest, Entry(ids[0], SeenMeta(v[src].meta, modes, src)))]
    case Mv(src, dest, order, hidden) => Deletes(order) + Deletes(hidden) + MovePuts(v, src, dest, order)
    case ChangeMode(p, mode) => [PatchMode(v[p].id, mode)]
    case MakeSymlink(target, p) => [Put(p, Entry(ids[0], SymlinkMeta(target)))]
    case HardLink(existing, p) => [Put(p, v[existing])]
  }

  function CopyPuts(steps: seq<CpStep>, ids: seq<Id>): (cs: seq<Change>)
    requires |ids| == |steps|
    ensures |cs| == |steps|
  {
    seq(|steps|, i requires 0 <= i < |steps| => Put(steps[i].dest, Entry(ids[i], steps[i].meta)))
  }

  function MovePuts(v: PathView, src: Path, dest: Path, order: seq<Path>): seq<Change> {
    if order == [] then []
    else var init := MovePuts(v, src, dest, order[..|order| - 1]);
      var p := order[|order| - 1];
      if p in v && src <= p then init + [Put(dest + p[|src|..], v[p])] else init
  }

  // ── Running a mutation in a transaction ────────────────────────────────────

  function RunRmStep(tx: Tx, s: RmStep, expected: nat): Option<Tx> {
    if s.entry.None? then DropTx(tx, s.id) else
    match DeleteDirent(tx, s.entry.value, expected)
    case None => None
    case Some(r) => DropTx(r.0, s.id)
  }

  function RunRmSteps(tx: Tx, steps: seq<RmStep>, expected: nat): Option<Tx> {
    if steps == [] then Some(tx) else
    match RunRmSteps(tx, steps[..|steps| - 1], expected)
    case None => None
    case Some(a) => RunRmStep(a, steps[|steps| - 1], expected)
  }

  /** A copied entry goes under the directory this copy made, or else under the one the plan found. */
  function RunCpStep(tx: Tx, created: map<Path, Id>, s: CpStep, id: Id, expected: nat): Option<(Tx, map<Path, Id>)> {
    var parent := if ParentOf(s.dest) in created then Some(created[ParentOf(s.dest)]) else s.existing;
    if parent.None? then None else
    match CreateInode(tx, id, s.meta, expected)
    case None => None
    case Some(a) =>
      match InsertDirent(a, (parent.value, NameOf(s.dest)), id)
      case None => None
      case Some(b) => Some((b, created[s.dest := id]))
  }

  function RunCpSteps(tx: Tx, steps: seq<CpStep>, ids: seq<Id>, expected: nat): Option<(Tx, map<Path, Id>)>
    requires |ids| == |steps|
  {
    if steps == [] then Some((tx, map[])) else
    var n := |steps| - 1;
    match RunCpSteps(tx, steps[..n], ids[..n], expected)
    case None => None
    case Some(a) => RunCpStep(a.0, a.1, steps[n], ids[n], expected)
  }

  /** Runs one mutation; `ids` are the inode ids the database hands out while it does. */
  function Run(op: Op, tx: Tx, ids: seq<Id>, expected: nat): Option<Tx>
    requires |ids| == Mints(op)
  {
    match op
    case MkdirOp(k, mode) => MkdirComposite(tx, k, mode, ids[0], expected)
    case CreateOp(k, meta) =>
      (match CreateInode(tx, ids[0], meta, expected)
       case None => None
       case Some(a) => InsertDirent(a, k, ids[0]))
    case WriteOp(k, meta) => WriteFileComposite(tx, k, meta, ids[0], expected)
    case RmOp(k) => RmComposite(tx, k, expected)
    case RmTreeOp(top, steps) =>
      if top.None? then RunRmSteps(tx, steps, expected) else
      (match DeleteDirent(tx, top.value, expected)
       case None => None
       case Some(r) => RunRmSteps(r.0, steps, expected))
    case CpOp(k, meta) =>
      (match CreateInode(tx, ids[0], meta, expected)
       case None => None
       case Some(a) =>
         match UpsertDirent(a, k, ids[0])
         case None => None
         case Some(r) => if r.1.Some? then DropTx(r.0, r.1.value) else Some(r.0))
    case CpTreeOp(plan) =>
      (match RunCpSteps(tx, plan, ids, expected) case None => None case Some(r) => Some(r.0))
    case MvOp(src, dest) => MvComposite(tx, src, dest, expected)
    case ChmodOp(id, mode) => UpdateMode(tx, id, mode, expected)
    case LinkOp(id, k) =>
      (match IncrementNlink(tx, id, expected)
       case None => None
       case Some(a) => InsertDirent(a, k, id))
  }

  /** Ids from the inode sequence: positive, unused and pairwise different. */
  ghost predicate Fresh(t: Tree, ids: seq<Id>) {
    && (forall i :: 0 <= i < |ids| ==> ids[i] > 0 && ids[i] !in t.inodes)
    && (forall i, j :: 0 <= i < j < |ids| ==> ids[i] != ids[j])
  }

  ghost predicate InStep(v: PathView, t: Tree) {
    Consistent(t) && Mirrors(v, t)
  }
}
