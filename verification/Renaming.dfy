/** Provisional inode ids. A scope plans against a view that holds negative ids; the flush replays the
    same mutations with real ones. Planning and publishing commute with any renaming of ids that is
    injective on the ids in play. */
module Renaming {
  import opened Options
  import opened Tables
  import opened View
  import opened Commands
  import opened CommandLaw

  type Remap = map<Id, Id>

  function Real(f: Remap, id: Id): Id {
    if id in f then f[id] else id
  }

  /** `resolveInodeId` succeeds: a real id stands for itself, a provisional one has to be bound. */
  predicate IdBound(f: Remap, id: Id) {
    id >= 0 || id in f
  }

  function RealKey(f: Remap, k: Key): Key {
    (Real(f, k.0), k.1)
  }

  function RealKeyOpt(f: Remap, k: Option<Key>): Option<Key> {
    match k case None => None case Some(x) => Some(RealKey(f, x))
  }

  function RealOpt(f: Remap, id: Option<Id>): Option<Id> {
    match id case None => None case Some(x) => Some(Real(f, x))
  }

  function RealOp(f: Remap, op: Op): (r: Op)
    ensures Mints(r) == Mints(op)
  {
    match op
    case MkdirOp(k, mode) => MkdirOp(RealKey(f, k), mode)
    case CreateOp(k, meta) => CreateOp(RealKey(f, k), meta)
    case WriteOp(k, meta) => WriteOp(RealKey(f, k), meta)
    case RmOp(k) => RmOp(RealKey(f, k))
    case RmTreeOp(top, steps) =>
      RmTreeOp(RealKeyOpt(f, top), seq(|steps|, i requires 0 <= i < |steps| =>
        RmStep(Real(f, steps[i].id), RealKeyOpt(f, steps[i].entry))))
    case CpOp(k, meta) => CpOp(RealKey(f, k), meta)
    case CpTreeOp(plan) =>
      CpTreeOp(seq(|plan|, i requires 0 <= i < |plan| => plan[i].(existing := RealOpt(f, plan[i].existing))))
    case MvOp(a, b) => MvOp(RealKey(f, a), RealKey(f, b))
    case ChmodOp(id, mode) => ChmodOp(Real(f, id), mode)
    case LinkOp(id, k) => LinkOp(Real(f, id), RealKey(f, k))
  }

  predicate KeyBound(f: Remap, k: Option<Key>) {
    k.Some? ==> IdBound(f, k.value.0)
  }

  predicate Bound(f: Remap, op: Op) {
    match op
    case MkdirOp(k, _) => IdBound(f, k.0)
    case CreateOp(k, _) => IdBound(f, k.0)
    case WriteOp(k, _) => IdBound(f, k.0)
    case RmOp(k) => IdBound(f, k.0)
    case RmTreeOp(top, steps) =>
      KeyBound(f, top) && forall i :: 0 <= i < |steps| ==> IdBound(f, steps[i].id) && KeyBound(f, steps[i].entry)
    case CpOp(k, _) => IdBound(f, k.0)
    case CpTreeOp(plan) => forall i :: 0 <= i < |plan| && plan[i].existing.Some? ==> IdBound(f, plan[i].existing.value)
    case MvOp(a, b) => IdBound(f, a.0) && IdBound(f, b.0)
    case ChmodOp(id, _) => IdBound(f, id)
    case LinkOp(id, k) => IdBound(f, id) && IdBound(f, k.0)
  }

  predicate Apart(f: Remap, a: Id, b: Id) {
    Real(f, a) == Real(f, b) ==> a == b
  }

  ghost predicate InjectiveOn(f: Remap, ids: iset<Id>) {
    forall a, b {:trigger Apart(f, a, b)} :: a in ids && b in ids ==> Apart(f, a, b)
  }

  ghost function IdsOf(v: PathView): iset<Id> {
    iset p | p in v :: v[p].id
  }

  ghost predicate Within(v: PathView, ids: iset<Id>) {
    forall p :: p in v ==> v[p].id in ids
  }

  function RealPlan(f: Remap, p: Planned): Planned {
    match p case Does(op) => Does(RealOp(f, op)) case _ => p
  }

  lemma RealEntry(v: PathView, f: Remap, p: Path)
    ensures p in RenameIds(v, f) <==> p in v
    ensures p in v ==> RenameIds(v, f)[p] == Entry(Real(f, v[p].id), v[p].meta)
  {
  }

  ghost predicate Renamed(v: PathView, f: Remap, w: PathView) {
    && (forall p :: p in w <==> p in v)
    && (forall p :: p in v ==> w[p] == Entry(Real(f, v[p].id), v[p].meta))
  }

  lemma RmPlanRenames(v: PathView, f: Remap, w: PathView, p: Path, recursive: bool, order: seq<Path>)
    requires Renamed(v, f, w)
    ensures PlanRm(w, p, recursive, order) == RealPlan(f, PlanRm(v, p, recursive, order))
  {
    assert HasChild(w, p) <==> HasChild(v, p);
    var r := PlanRm(v, p, recursive, order);
    if r.Does? && r.op.RmTreeOp? {
      assert PlanRm(w, p, recursive, order).op.steps == RealOp(f, r.op).steps;
    }
  }

  lemma CpPlanRenames(v: PathView, f: Remap, w: PathView, src: Path, dest: Path, recursive: bool, order: seq<Path>,
                      modes: Modes)
    requires Renamed(v, f, w)
    ensures PlanCp(w, src, dest, recursive, order, modes) == RealPlan(f, PlanCp(v, src, dest, recursive, order, modes))
  {
    var r := PlanCp(v, src, dest, recursive, order, modes);
    if r.Does? && r.op.CpTreeOp? {
      assert PlanCp(w, src, dest, recursive, order, modes).op.plan == RealOp(f, r.op).plan;
    }
  }

  lemma MvPlanRenames(v: PathView, f: Remap, w: PathView, src: Path, dest: Path)
    requires Renamed(v, f, w) && InjectiveOn(f, IdsOf(v))
    ensures PlanMv(w, src, dest) == RealPlan(f, PlanMv(v, src, dest))
  {
    HasChildRenames(v, f, w, dest);
    SameIdRenames(v, f, w, src, dest);
    hide HasChild, InjectiveOn, IdsOf;
  }

  lemma HasChildRenames(v: PathView, f: Remap, w: PathView, p: Path)
    requires Renamed(v, f, w)
    ensures HasChild(w, p) <==> HasChild(v, p)
  {
  }

  lemma SameIdRenames(v: PathView, f: Remap, w: PathView, p: Path, q: Path)
    requires Renamed(v, f, w) && InjectiveOn(f, IdsOf(v))
    ensures p in v && q in v ==> (w[p].id == w[q].id <==> v[p].id == v[q].id)
  {
    if p in v && q in v {
      assert v[p].id in IdsOf(v) && v[q].id in IdsOf(v);
      assert Apart(f, v[p].id, v[q].id);
    }
  }

  /** Planning commutes with renaming. */
  lemma PlanRenames(v: PathView, f: Remap, cmd: Cmd)
    requires InjectiveOn(f, IdsOf(v))
    ensures PlanOf(RenameIds(v, f), cmd) == RealPlan(f, PlanOf(v, cmd))
  {
    hide PlanRm, PlanCp, PlanMv, InjectiveOn;
    var w := RenameIds(v, f);
    assert Renamed(v, f, w);
    hide RenameIds;
    match cmd
    case Rm(p, recursive, order) => RmPlanRenames(v, f, w, p, recursive, order);
    case Cp(src, dest, recursive, order, modes) => CpPlanRenames(v, f, w, src, dest, recursive, order, modes);
    case Mv(src, dest, _, _) => MvPlanRenames(v, f, w, src, dest);
    case _ =>
  }

  /** Every id a plan mentions is an id of the view. */
  lemma PlanBound(v: PathView, f: Remap, cmd: Cmd)
    requires forall p :: p in v ==> IdBound(f, v[p].id)
    requires PlanOf(v, cmd).Does?
    ensures Bound(f, PlanOf(v, cmd).op)
  {
  }

  function RealChange(f: Remap, c: Change): Change {
    match c
    case Put(p, e) => Put(p, e.(id := Real(f, e.id)))
    case Delete(p) => c
    case PatchMode(id, mode) => PatchMode(Real(f, id), mode)
  }

  function RealChanges(f: Remap, cs: seq<Change>): (r: seq<Change>)
    ensures |r| == |cs|
  {
    seq(|cs|, i requires 0 <= i < |cs| => RealChange(f, cs[i]))
  }

  ghost predicate ChangeIn(c: Change, ids: iset<Id>) {
    match c
    case Put(_, e) => e.id in ids
    case Delete(_) => true
    case PatchMode(id, _) => id in ids
  }

  lemma PatchRenames(v: PathView, f: Remap, id: Id, mode: int, ids: iset<Id>)
    requires InjectiveOn(f, ids) && Within(v, ids) && id in ids
    ensures ApplyChange(RenameIds(v, f), PatchMode(Real(f, id), mode))
            == RenameIds(ApplyChange(v, PatchMode(id, mode)), f)
  {
    forall p | p in v ensures Real(f, v[p].id) == Real(f, id) <==> v[p].id == id { assert Apart(f, v[p].id, id); }
    hide InjectiveOn, Within;
    var a, b := ApplyChange(RenameIds(v, f), PatchMode(Real(f, id), mode)),
        RenameIds(ApplyChange(v, PatchMode(id, mode)), f);
    assert a.Keys == v.Keys == b.Keys;
    forall p | p in v ensures a[p] == b[p] {}
  }

  lemma PutRenames(v: PathView, f: Remap, p: Path, e: Entry)
    ensures RenameIds(v[p := e], f) == RenameIds(v, f)[p := e.(id := Real(f, e.id))]
  {
    assert RenameIds(v[p := e], f).Keys == v.Keys + {p};
  }

  lemma DeleteRenames(v: PathView, f: Remap, p: Path)
    ensures RenameIds(v - {p}, f) == RenameIds(v, f) - {p}
  {
    assert RenameIds(v - {p}, f).Keys == v.Keys - {p};
  }

  lemma ChangeRenames(v: PathView, f: Remap, c: Change, ids: iset<Id>)
    requires InjectiveOn(f, ids) && Within(v, ids) && ChangeIn(c, ids)
    ensures ApplyChange(RenameIds(v, f), RealChange(f, c)) == RenameIds(ApplyChange(v, c), f)
  {
    hide RenameIds, InjectiveOn, Within;
    match c
    case Put(p, e) => PutRenames(v, f, p, e);
    case Delete(p) => DeleteRenames(v, f, p);
    case PatchMode(id, mode) => PatchRenames(v, f, id, mode, ids);
  }

  lemma ChangeWithin(v: PathView, c: Change, ids: iset<Id>)
    requires Within(v, ids) && ChangeIn(c, ids)
    ensures Within(ApplyChange(v, c), ids)
  {
  }

  /** Publishing commutes with renaming. */
  lemma {:induction false} ChangesRename(v: PathView, f: Remap, cs: seq<Change>, ids: iset<Id>)
    requires InjectiveOn(f, ids) && Within(v, ids) && ChangesIn(cs, ids)
    ensures ApplyChanges(RenameIds(v, f), RealChanges(f, cs)) == RenameIds(ApplyChanges(v, cs), f)
    ensures Within(ApplyChanges(v, cs), ids)
  {
    if cs != [] {
      hide InjectiveOn, Within, RenameIds, ApplyChange;
      var init := cs[..|cs| - 1];
      ChangesRename(v, f, init, ids);
      assert RealChanges(f, cs)[..|cs| - 1] == RealChanges(f, init);
      ChangeRenames(ApplyChanges(v, init), f, cs[|cs| - 1], ids);
      ChangeWithin(ApplyChanges(v, init), cs[|cs| - 1], ids);
    }
  }

  function RealIds(f: Remap, ids: seq<Id>): (r: seq<Id>)
    ensures |r| == |ids|
  {
    seq(|ids|, i requires 0 <= i < |ids| => Real(f, ids[i]))
  }

  ghost function Minted(ids: seq<Id>): iset<Id> {
    iset i | i in ids
  }

  lemma {:induction false} MovePutsRename(v: PathView, f: Remap, src: Path, dest: Path, order: seq<Path>)
    ensures MovePuts(RenameIds(v, f), src, dest, order) == RealChanges(f, MovePuts(v, src, dest, order))
    ensures ChangesIn(MovePuts(v, src, dest, order), IdsOf(v))
  {
    if order != [] {
      MovePutsRename(v, f, src, dest, order[..|order| - 1]);
      var p := order[|order| - 1];
      if p in v { assert v[p].id in IdsOf(v); }
    }
  }

  lemma CopyPutsRename(v: PathView, f: Remap, w: PathView, src: Path, dest: Path, order: seq<Path>, modes: Modes,
                       minted: seq<Id>)
    requires Renamed(v, f, w) && |minted| == |order|
    requires forall i :: 0 <= i < |order| ==> order[i] in v && src <= order[i]
    ensures CopyPuts(CpPlan(w, src, dest, order, modes), RealIds(f, minted))
            == RealChanges(f, CopyPuts(CpPlan(v, src, dest, order, modes), minted))
  {
  }

  ghost predicate ChangesIn(cs: seq<Change>, ids: iset<Id>) {
    forall i :: 0 <= i < |cs| ==> ChangeIn(cs[i], ids)
  }

  /** The changes a command publishes rename along with its plan. */
  lemma CommandChangesRename(v: PathView, f: Remap, cmd: Cmd, minted: seq<Id>)
    requires InjectiveOn(f, IdsOf(v))
    requires PlanOf(v, cmd).Does? && |minted| == Mints(PlanOf(v, cmd).op)
    ensures PlanOf(RenameIds(v, f), cmd) == Does(RealOp(f, PlanOf(v, cmd).op))
    ensures Changes(RenameIds(v, f), cmd, RealIds(f, minted)) == RealChanges(f, Changes(v, cmd, minted))
    ensures ChangesIn(Changes(v, cmd, minted), IdsOf(v) + Minted(minted))
  {
    PlanRenames(v, f, cmd);
    hide InjectiveOn;
    var w := RenameIds(v, f);
    assert Renamed(v, f, w);
    hide RenameIds, PlanOf;
    match cmd
    case Mv(_, _, _, _) => MvChangesRename(v, f, w, cmd);
    case Cp(_, _, _, _, _) => CpChangesRename(v, f, w, cmd, minted);
    case _ => OtherChangesRename(v, f, w, cmd, minted);
  }

  lemma MvChangesRename(v: PathView, f: Remap, w: PathView, cmd: Cmd)
    requires cmd.Mv? && w == RenameIds(v, f) && PlanOf(v, cmd).Does? && PlanOf(w, cmd).Does?
    requires Mints(PlanOf(v, cmd).op) == 0 == Mints(PlanOf(w, cmd).op)
    ensures Changes(w, cmd, []) == RealChanges(f, Changes(v, cmd, []))
    ensures ChangesIn(Changes(v, cmd, []), IdsOf(v))
  {
    hide RenameIds, PlanOf;
    MovePutsRename(v, f, cmd.src, cmd.dest, cmd.order);
    DeletesRename(f, cmd.order);
    DeletesRename(f, cmd.hidden);
    var ds, ps := Deletes(cmd.order) + Deletes(cmd.hidden), MovePuts(v, cmd.src, cmd.dest, cmd.order);
    RealChangesConcat(f, Deletes(cmd.order), Deletes(cmd.hidden));
    RealChangesConcat(f, ds, ps);
  }

  lemma RealChangesConcat(f: Remap, a: seq<Change>, b: seq<Change>)
    ensures RealChanges(f, a + b) == RealChanges(f, a) + RealChanges(f, b)
  {
  }

  lemma CpChangesRename(v: PathView, f: Remap, w: PathView, cmd: Cmd, minted: seq<Id>)
    requires cmd.Cp? && Renamed(v, f, w) && PlanOf(v, cmd).Does? && PlanOf(w, cmd).Does?
    requires Mints(PlanOf(v, cmd).op) == |minted| == Mints(PlanOf(w, cmd).op)
    ensures Changes(w, cmd, RealIds(f, minted)) == RealChanges(f, Changes(v, cmd, minted))
    ensures ChangesIn(Changes(v, cmd, minted), Minted(minted))
  {
    if v[cmd.src].meta.kind == Directory { CopyPutsRename(v, f, w, cmd.src, cmd.dest, cmd.order, cmd.modes, minted); }
  }

  lemma OtherChangesRename(v: PathView, f: Remap, w: PathView, cmd: Cmd, minted: seq<Id>)
    requires !cmd.Mv? && !cmd.Cp? && Renamed(v, f, w) && PlanOf(v, cmd).Does? && PlanOf(w, cmd).Does?
    requires Mints(PlanOf(v, cmd).op) == |minted| == Mints(PlanOf(w, cmd).op)
    ensures Changes(w, cmd, RealIds(f, minted)) == RealChanges(f, Changes(v, cmd, minted))
    ensures ChangesIn(Changes(v, cmd, minted), IdsOf(v) + Minted(minted))
  {
    match cmd
    case Rm(_, _, _) => DeletesRename(f, cmd.order);
    case ChangeMode(p, _) => assert v[p].id in IdsOf(v);
    case HardLink(p, _) => assert v[p].id in IdsOf(v);
    case _ =>
  }

  lemma DeletesRename(f: Remap, ps: seq<Path>)
    ensures RealChanges(f, Deletes(ps)) == Deletes(ps)
  {
  }

  lemma PublishRenames(v: PathView, f: Remap, cmd: Cmd, minted: seq<Id>)
    requires InjectiveOn(f, IdsOf(v) + Minted(minted))
    requires PlanOf(v, cmd).Does? && |minted| == Mints(PlanOf(v, cmd).op)
    ensures PlanOf(RenameIds(v, f), cmd) == Does(RealOp(f, PlanOf(v, cmd).op))
    ensures Publish(RenameIds(v, f), cmd, RealIds(f, minted)) == RenameIds(Publish(v, cmd, minted), f)
    ensures Within(Publish(v, cmd, minted), IdsOf(v) + Minted(minted))
  {
    hide RenameIds, ApplyChanges, PlanOf, Changes;
    CommandChangesRename(v, f, cmd, minted);
    ChangesRename(v, f, Changes(v, cmd, minted), IdsOf(v) + Minted(minted));
  }
}
