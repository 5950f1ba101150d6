/** Mutations that overlap in time. Each plans against the cache, is recorded or committed later, and
    publishes later still; in between others do the same. Reservations keep their paths apart. The
    cache then holds what it would hold had each been published the moment it was recorded, and the
    modes are right too exactly as long as every publication is clean. */
module InFlight {
  import opened Options
  import opened Tables
  import opened View
  import opened Commands
  import opened CommandLaw
  import opened Isolation

  /** A mutation between its plan and its publication: the command with what planning read written into
      it, the mutation it will run, the entry a hard link read, the ids it was given once recorded, and
      the paths its operation reserved. */
  datatype Flight = Flight(cmd: Cmd, op: Op, source: Option<Entry>, ids: seq<Id>, held: set<Path>)

  /** The command with what planning reads from the cache written into it: modes, and that a segment of
      `mkdir -p` is missing. */
  function Resolved(v: PathView, cmd: Cmd): Cmd {
    match cmd
    case Cp(src, dest, recursive, order, _) =>
      Cp(src, dest, recursive, order, map p | p in order && p in v :: v[p].meta.mode)
    case WriteFile(p, _, size, sha) => WriteFile(p, Some(WriteMeta(v, cmd).mode), size, sha)
    case MkdirSegment(p, mode, _) => MkdirSegment(p, mode, true)
    case _ => cmd
  }

  /** Nothing of the plan depends on cached modes. */
  predicate Explicit(cmd: Cmd) {
    match cmd
    case Cp(src, _, _, order, modes) => src in modes && forall i :: 0 <= i < |order| ==> order[i] in modes
    case WriteFile(_, mode, _, _) => mode.Some?
    case _ => true
  }

  function Planning(v: PathView, cmd: Cmd, held: set<Path>): Flight
    requires PlanOf(v, cmd).Does?
  {
    Flight(Resolved(v, cmd), PlanOf(v, cmd).op, if cmd.HardLink? then Some(v[cmd.existing]) else None, [], held)
  }

  // ── Entries up to their modes ──────────────────────────────────────────────

  /** Equal, or equal but for the mode when modes do not matter. */
  predicate Alike(exact: bool, a: Entry, b: Entry) {
    a.id == b.id && (if exact then a.meta == b.meta else a.meta == b.meta.(mode := a.meta.mode))
  }

  type Relation = (Entry, Entry) -> bool

  predicate RelatedAt(rel: Relation, v: PathView, w: PathView, q: Path) {
    (q in v <==> q in w) && (q in v && q in w ==> rel(v[q], w[q]))
  }

  ghost predicate RelatedFor(rel: Relation, v: PathView, w: PathView, cmd: Cmd) {
    forall q :: Consults(cmd, q) ==> RelatedAt(rel, v, w, q)
  }

  /** `w` with the modes of `v` wherever `v` has the path. */
  function Remoded(v: PathView, w: PathView): PathView {
    map q | q in w :: if q in v then w[q].(meta := w[q].meta.(mode := v[q].meta.mode)) else w[q]
  }

  ghost predicate UpToModes(v: PathView, w: PathView, cmd: Cmd) {
    RelatedFor((a, b) => Alike(false, a, b), v, w, cmd)
  }

  lemma SameBut(v: PathView, w: PathView, cmd: Cmd)
    requires UpToModes(v, w, cmd)
    ensures Agrees(v, Remoded(v, w), cmd) && OnlyModes(w, Remoded(v, w))
  {
    var u := Remoded(v, w);
    forall q | Consults(cmd, q) ensures SameAt(v, u, q) {
      assert RelatedAt((a, b) => Alike(false, a, b), v, w, q);
    }
  }

  lemma ValidAgrees(v: PathView, w: PathView, cmd: Cmd)
    requires UpToModes(v, w, cmd) && Valid(v, cmd)
    ensures Valid(w, cmd)
  {
    match cmd
    case Rm(p, _, order) => ListsAgree(v, w, cmd, p, order);
    case Cp(src, _, _, order, _) => ListsAgree(v, w, cmd, src, order);
    case Mv(src, dest, order, hidden) =>
      ListsAgree(v, w, cmd, src, order);
      ListsAgree(v, w, cmd, dest, hidden);
    case _ =>
  }

  lemma ListsAgree(v: PathView, w: PathView, cmd: Cmd, at: Path, order: seq<Path>)
    requires UpToModes(v, w, cmd) && at in Roots(cmd) && Lists(v, at, order)
    ensures Lists(w, at, order)
  {
    forall p | at <= p ensures p in v <==> p in w {
      CoveredBy(Roots(cmd), at, p);
      assert Consults(cmd, p);
      assert RelatedAt((a, b) => Alike(false, a, b), v, w, p);
    }
  }

  lemma ExplicitPlan(v: PathView, w: PathView, cmd: Cmd)
    requires OnlyModes(v, w) && Explicit(cmd) && Valid(v, cmd)
    ensures PlanOf(w, cmd) == PlanOf(v, cmd)
  {
    if cmd.Cp? {
      CopyPlan(v, w, cmd);
      assert forall q :: !CarriesMode(v, cmd, q);
    } else if !cmd.WriteFile? {
      ModelessPlan(v, w, cmd);
    }
  }

  /** Planning in a view that differs only outside what the command consults, or only in modes. */
  lemma PlanAlike(v: PathView, w: PathView, cmd: Cmd)
    requires UpToModes(v, w, cmd) && Explicit(cmd) && Valid(v, cmd)
    ensures PlanOf(w, cmd) == PlanOf(v, cmd) && Valid(w, cmd)
  {
    hide UpToModes, PlanOf, Valid, Agrees, OnlyModes;
    SameBut(v, w, cmd);
    ValidAgrees(v, w, cmd);
    SamePlan(v, Remoded(v, w), cmd);
    ExplicitPlan(w, Remoded(v, w), cmd);
  }

  // ── Publications read and write only their own paths ───────────────────────

  predicate RelatedChange(rel: Relation, c: Change, d: Change) {
    match c
    case Put(p, e) => d.Put? && d.path == p && rel(e, d.entry)
    case Delete(p) => d == c
    case PatchMode(_, _) => false
  }

  ghost predicate RelatedChanges(rel: Relation, cs: seq<Change>, ds: seq<Change>) {
    |cs| == |ds| && forall i :: 0 <= i < |cs| ==> RelatedChange(rel, cs[i], ds[i])
  }

  lemma {:induction false} ApplyRelated(rel: Relation, v: PathView, w: PathView, cs: seq<Change>, ds: seq<Change>,
                                        q: Path)
    requires RelatedAt(rel, v, w, q) && RelatedChanges(rel, cs, ds)
    ensures RelatedAt(rel, ApplyChanges(v, cs), ApplyChanges(w, ds), q)
    decreases |cs|
  {
    if cs != [] {
      var n := |cs| - 1;
      ApplyRelated(rel, v, w, cs[..n], ds[..n], q);
      assert RelatedChange(rel, cs[n], ds[n]);
    }
  }

  /** Entries under new ids are related to themselves. */
  ghost predicate Reflexive(rel: Relation, ids: seq<Id>) {
    forall id, meta :: id in ids ==> rel(Entry(id, meta), Entry(id, meta))
  }

  ghost predicate BothPlan(v: PathView, w: PathView, cmd: Cmd, ids: seq<Id>) {
    && !cmd.ChangeMode? && Explicit(cmd) && Valid(v, cmd) && Valid(w, cmd)
    && PlanOf(v, cmd).Does? && PlanOf(w, cmd) == PlanOf(v, cmd) && |ids| == Mints(PlanOf(v, cmd).op)
  }

  lemma MovePutsRelate(rel: Relation, v: PathView, w: PathView, cmd: Cmd)
    requires cmd.Mv? && Valid(v, cmd) && Valid(w, cmd) && RelatedFor(rel, v, w, cmd)
    ensures RelatedChanges(rel, MovePuts(v, cmd.src, cmd.dest, cmd.order), MovePuts(w, cmd.src, cmd.dest, cmd.order))
  {
    var src, dest, order := cmd.src, cmd.dest, cmd.order;
    forall i | 0 <= i < |order|
      ensures order[i] in v && order[i] in w && src <= order[i] && rel(v[order[i]], w[order[i]])
    {
      assert order[i] in order;
      CoveredBy(Roots(cmd), src, order[i]);
      assert Consults(cmd, order[i]);
      assert RelatedAt(rel, v, w, order[i]);
    }
    MovePutsShape(v, src, dest, order);
    MovePutsShape(w, src, dest, order);
  }

  lemma RootRelated(rel: Relation, v: PathView, w: PathView, cmd: Cmd, r: Path)
    requires RelatedFor(rel, v, w, cmd) && r in Roots(cmd)
    ensures RelatedAt(rel, v, w, r)
  {
    CoveredBy(Roots(cmd), r, r);
    assert Consults(cmd, r);
  }

  lemma ChangesRelate(rel: Relation, v: PathView, w: PathView, cmd: Cmd, ids: seq<Id>)
    requires BothPlan(v, w, cmd, ids) && RelatedFor(rel, v, w, cmd) && UpToModes(v, w, cmd) && Reflexive(rel, ids)
    ensures RelatedChanges(rel, Changes(v, cmd, ids), Changes(w, cmd, ids))
  {
    match cmd
    case Mv(_, _, _, _) =>
      hide PlanOf;
      MovePutsRelate(rel, v, w, cmd);
    case HardLink(existing, _) => RootRelated(rel, v, w, cmd, existing);
    case Rm(p, _, _) => RootRelated((a, b) => Alike(false, a, b), v, w, cmd, p);
    case Cp(_, _, _, _, _) => CopyRelates(rel, v, w, cmd, ids);
    case _ =>
  }

  lemma CopyRelates(rel: Relation, v: PathView, w: PathView, cmd: Cmd, ids: seq<Id>)
    requires cmd.Cp? && BothPlan(v, w, cmd, ids) && UpToModes(v, w, cmd) && Reflexive(rel, ids)
    ensures RelatedChanges(rel, Changes(v, cmd, ids), Changes(w, cmd, ids))
  {
    RootRelated((a, b) => Alike(false, a, b), v, w, cmd, cmd.src);
    hide UpToModes, Explicit, Valid;
    assert Changes(w, cmd, ids) == Changes(v, cmd, ids);
    var cs := Changes(v, cmd, ids);
    forall i | 0 <= i < |cs| ensures cs[i].Put? && rel(cs[i].entry, cs[i].entry) {
      assert cs[i].entry == Entry(ids[i], cs[i].entry.meta);
    }
  }

  /** What publication leaves under a command's own paths depends on what it consults and no more. */
  lemma PublishRelates(rel: Relation, v: PathView, w: PathView, cmd: Cmd, ids: seq<Id>, q: Path)
    requires BothPlan(v, w, cmd, ids) && RelatedFor(rel, v, w, cmd) && UpToModes(v, w, cmd) && Reflexive(rel, ids)
    requires Covers(Roots(cmd), q)
    ensures RelatedAt(rel, Publish(v, cmd, ids), Publish(w, cmd, ids), q)
  {
    hide PlanOf, UpToModes, Reflexive, Explicit;
    assert Consults(cmd, q);
    assert RelatedAt(rel, v, w, q);
    ChangesRelate(rel, v, w, cmd, ids);
    ApplyRelated(rel, v, w, Changes(v, cmd, ids), Changes(w, cmd, ids), q);
  }

  // ── Flights ────────────────────────────────────────────────────────────────

  predicate Patches(x: Flight, id: Id) {
    x.op.ChmodOp? && x.op.id == id
  }

  /** The entry once the mode changes among `xs` have been published, in this order. */
  function Patched(e: Entry, xs: seq<Flight>): Entry {
    if xs == [] then e else
    var d := Patched(e, xs[..|xs| - 1]);
    if Patches(xs[|xs| - 1], e.id) then d.(meta := d.meta.(mode := xs[|xs| - 1].op.mode)) else d
  }

  /** The sources of a recursive copy have the modes it read. */
  predicate SameModes(v: PathView, cmd: Cmd) {
    cmd.Cp? ==> forall i :: 0 <= i < |cmd.order| ==>
      cmd.order[i] in v && cmd.order[i] in cmd.modes && v[cmd.order[i]].meta.mode == cmd.modes[cmd.order[i]]
  }

  /** The plan still stands: it is what planning now would give. Only modes may have changed. */
  ghost predicate Stands(v: PathView, x: Flight) {
    && Valid(v, x.cmd) && Explicit(x.cmd) && PlanOf(v, x.cmd) == Does(x.op)
    && (x.cmd.HardLink? ==> x.source.Some? && x.cmd.existing in v && Alike(false, x.source.value, v[x.cmd.existing]))
    && (x.cmd.Cp? && x.cmd.src == [] ==> SameModes(v, x.cmd))
  }

  /** Reservations: no two flights have overlapping paths. */
  ghost predicate Apart(xs: seq<Flight>) {
    forall j, k :: 0 <= j < k < |xs| ==> Disjoint(Roots(xs[j].cmd), Roots(xs[k].cmd))
  }

  ghost predicate AllStand(v: PathView, xs: seq<Flight>) {
    forall k :: 0 <= k < |xs| ==> Stands(v, xs[k])
  }

  predicate Given(x: Flight) {
    |x.ids| == Mints(x.op)
  }

  /** The ids of unpublished flights are nowhere in the cache, and nobody else's. */
  ghost predicate Unborn(v: PathView, xs: seq<Flight>) {
    && (forall k, q :: 0 <= k < |xs| && q in v ==> v[q].id !in xs[k].ids)
    && (forall j, k, id :: 0 <= j < k < |xs| && id in xs[j].ids ==> id !in xs[k].ids)
  }

  /** The cache once `x` alone had been published as it was planned. */
  function Due(v: PathView, x: Flight): PathView
    requires PlanOf(v, x.cmd) == Does(x.op) && Given(x)
  {
    Publish(v, x.cmd, x.ids)
  }

  ghost predicate Owns(x: Flight, q: Path) {
    !x.cmd.ChangeMode? && Covers(Roots(x.cmd), q)
  }

  predicate TrackedAt(exact: bool, v: PathView, xs: seq<Flight>, truth: PathView, q: Path) {
    RelatedAt((a, b) => Alike(exact, Patched(a, xs), b), v, truth, q)
  }

  ghost predicate Loose(xs: seq<Flight>, q: Path) {
    forall k :: 0 <= k < |xs| ==> !Owns(xs[k], q)
  }

  /** `truth` is what the cache `v` will be once every recorded flight has been published: under a
      flight's own paths as that flight leaves them, elsewhere as they are, mode changes applied. */
  ghost predicate Tracks(exact: bool, v: PathView, xs: seq<Flight>, truth: PathView)
    requires AllStand(v, xs) && forall k :: 0 <= k < |xs| ==> Given(xs[k])
  {
    && (forall q :: Loose(xs, q) ==> TrackedAt(exact, v, xs, truth, q))
    && (forall k, q :: 0 <= k < |xs| && Owns(xs[k], q) ==> TrackedAt(exact, Due(v, xs[k]), xs, truth, q))
  }

  /** Everything that holds of a session's cache, its recorded flights and the view it is due to hold. */
  ghost predicate Holds(exact: bool, v: PathView, xs: seq<Flight>, truth: PathView) {
    && AllStand(v, xs) && Apart(xs) && Unborn(v, xs) && (forall k :: 0 <= k < |xs| ==> Given(xs[k]))
    && Tracks(exact, v, xs, truth)
  }

  lemma {:induction false} PatchedKeeps(e: Entry, xs: seq<Flight>)
    ensures Alike(false, Patched(e, xs), e)
    ensures (forall k :: 0 <= k < |xs| ==> !Patches(xs[k], e.id)) ==> Patched(e, xs) == e
  {
    if xs != [] { PatchedKeeps(e, xs[..|xs| - 1]); }
  }

  /** A path no recorded flight owns is cached as it should be, but for modes still to come. */
  lemma LooseUpToModes(exact: bool, v: PathView, xs: seq<Flight>, truth: PathView, cmd: Cmd)
    requires Holds(exact, v, xs, truth) && forall k :: 0 <= k < |xs| ==> Disjoint(Roots(xs[k].cmd), Roots(cmd))
    ensures UpToModes(v, truth, cmd) && RelatedFor((a, b) => Alike(exact, Patched(a, xs), b), v, truth, cmd)
  {
    forall q | Consults(cmd, q)
      ensures RelatedAt((a, b) => Alike(exact, Patched(a, xs), b), v, truth, q)
      ensures RelatedAt((a, b) => Alike(false, a, b), v, truth, q)
    {
      forall k | 0 <= k < |xs| ensures !Owns(xs[k], q) { ConsultsElsewhere(cmd, Roots(xs[k].cmd), q); }
      assert Loose(xs, q);
      assert TrackedAt(exact, v, xs, truth, q);
      if q in v { PatchedKeeps(v[q], xs); }
    }
  }

  // ── Planning and recording ─────────────────────────────────────────────────

  lemma ResolvedPlan(v: PathView, cmd: Cmd, held: set<Path>)
    requires Valid(v, cmd) && PlanOf(v, cmd).Does? && (cmd.Cp? ==> cmd.modes == map[])
    ensures Stands(v, Planning(v, cmd, held)) && Roots(Planning(v, cmd, held).cmd) == Roots(cmd)
    ensures NormalCmd(cmd) ==> NormalCmd(Planning(v, cmd, held).cmd)
    ensures LinksRoot(Planning(v, cmd, held).cmd) == LinksRoot(cmd)
  {
    var r := Resolved(v, cmd);
    if cmd.Cp? {
      forall i | 0 <= i < |cmd.order| ensures cmd.order[i] in v && cmd.order[i] in r.modes {
        assert cmd.order[i] in cmd.order;
      }
      assert cmd.src in cmd.order;
      if v[cmd.src].meta.kind == Directory {
        assert CpPlan(v, cmd.src, cmd.dest, cmd.order, r.modes) == CpPlan(v, cmd.src, cmd.dest, cmd.order, map[]);
      }
    }
  }

  ghost predicate ApartFrom(xs: seq<Flight>, cmd: Cmd) {
    forall k :: 0 <= k < |xs| ==> Disjoint(Roots(xs[k].cmd), Roots(cmd))
  }

  lemma PlansInTruth(exact: bool, v: PathView, xs: seq<Flight>, truth: PathView, x: Flight)
    requires Holds(exact, v, xs, truth) && Stands(v, x) && ApartFrom(xs, x.cmd)
    ensures UpToModes(v, truth, x.cmd) && Valid(truth, x.cmd) && PlanOf(truth, x.cmd) == Does(x.op)
  {
    hide PlanOf, Valid, Tracks;
    LooseUpToModes(exact, v, xs, truth, x.cmd);
    PlanAlike(v, truth, x.cmd);
  }

  lemma ApartMore(xs: seq<Flight>, x: Flight)
    requires Apart(xs) && ApartFrom(xs, x.cmd)
    ensures Apart(xs + [x])
  {
    hide Disjoint;
  }

  lemma SymmetricDisjoint(a: set<Path>, b: set<Path>)
    requires Disjoint(a, b)
    ensures Disjoint(b, a)
  {
  }

  lemma PatchedMore(e: Entry, xs: seq<Flight>, x: Flight)
    ensures Patched(e, xs + [x]) == if Patches(x, e.id)
            then Patched(e, xs).(meta := Patched(e, xs).meta.(mode := x.op.mode))
                                    else Patched(e, xs)
  {
    assert (xs + [x])[..|xs|] == xs;
  }

  lemma ChmodIsChmod(v: PathView, x: Flight)
    requires PlanOf(v, x.cmd) == Does(x.op)
    ensures x.op.ChmodOp? <==> x.cmd.ChangeMode?
    ensures x.cmd.ChangeMode? ==> x.cmd.path in v && x.op == ChmodOp(v[x.cmd.path].id, x.cmd.mode) && Mints(x.op) == 0
  {
  }

  lemma LooseLess(xs: seq<Flight>, x: Flight, q: Path)
    requires Loose(xs + [x], q)
    ensures Loose(xs, q) && !Owns(x, q)
  {
    hide Owns;
    var ys := xs + [x];
    assert ys[|xs|] == x;
    forall k | 0 <= k < |xs| ensures !Owns(xs[k], q) { assert ys[k] == xs[k]; }
  }

  lemma TrackPatch(exact: bool, u: PathView, xs: seq<Flight>, x: Flight, w: PathView, q: Path)
    requires x.op.ChmodOp? && TrackedAt(exact, u, xs, w, q)
    ensures TrackedAt(exact, u, xs + [x], ApplyChange(w, PatchMode(x.op.id, x.op.mode)), q)
  {
    if q in u {
      PatchedMore(u[q], xs, x);
      PatchedKeeps(u[q], xs);
    }
  }

  lemma TrackMore(exact: bool, u: PathView, xs: seq<Flight>, x: Flight, w: PathView, next: PathView, q: Path)
    requires !x.op.ChmodOp? && TrackedAt(exact, u, xs, w, q) && SameAt(w, next, q)
    ensures TrackedAt(exact, u, xs + [x], next, q)
  {
    if q in u { PatchedMore(u[q], xs, x); }
  }

  lemma StandMore(v: PathView, xs: seq<Flight>, x: Flight)
    requires AllStand(v, xs) && Stands(v, x) && Given(x) && (forall k :: 0 <= k < |xs| ==> Given(xs[k]))
    ensures AllStand(v, xs + [x]) && (forall k :: 0 <= k < |xs + [x]| ==> Given((xs + [x])[k]))
  {
    hide Stands, Given;
  }

  /** A recorded mode change is due everywhere its inode has a name. */
  lemma RecordChmod(exact: bool, v: PathView, xs: seq<Flight>, truth: PathView, x: Flight)
    requires Holds(exact, v, xs, truth) && Stands(v, x) && ApartFrom(xs, x.cmd) && x.cmd.ChangeMode? && x.ids == []
    ensures PlanOf(truth, x.cmd) == Does(x.op) && Given(x) && Holds(exact, v, xs + [x], Publish(truth, x.cmd, []))
  {
    PlansInTruth(exact, v, xs, truth, x);
    ChmodIsChmod(v, x);
    ChmodIsChmod(truth, x);
    OneChange(truth, PatchMode(x.op.id, x.op.mode));
    ApartMore(xs, x);
    StandMore(v, xs, x);
    hide Apart, PlanOf, Valid, Disjoint, Roots, ApplyChange, TrackedAt, Patched, Covers, Explicit, SameModes, ApartFrom,
         UpToModes;
    var ys, next := xs + [x], Publish(truth, x.cmd, []);
    assert Unborn(v, ys);
    forall q | Loose(ys, q) ensures TrackedAt(exact, v, ys, next, q) {
      LooseLess(xs, x, q);
      TrackPatch(exact, v, xs, x, truth, q);
    }
    forall k, q | 0 <= k < |ys| && Owns(ys[k], q) ensures TrackedAt(exact, Due(v, ys[k]), ys, next, q) {
      assert ys[k] == xs[k];
      TrackPatch(exact, Due(v, xs[k]), xs, x, truth, q);
    }
  }

  /** A recorded flight leaves the view that is due as if it were published at once. */
  lemma RecordOther(exact: bool, v: PathView, xs: seq<Flight>, truth: PathView, x: Flight)
    requires Holds(exact, v, xs, truth) && Stands(v, x) && ApartFrom(xs, x.cmd) && !x.cmd.ChangeMode? && Given(x)
    requires Unborn(v, xs + [x])
    ensures PlanOf(truth, x.cmd) == Does(x.op) && Holds(exact, v, xs + [x], Publish(truth, x.cmd, x.ids))
  {
    PlansInTruth(exact, v, xs, truth, x);
    ChmodIsChmod(v, x);
    ApartMore(xs, x);
    StandMore(v, xs, x);
    PublishStaysInside(truth, x.cmd, x.ids);
    hide Apart, PlanOf, Valid, Disjoint, Roots, TrackedAt, Patched, Covers, Explicit, SameModes, ApartFrom, UpToModes,
         Publish;
    var ys, next := xs + [x], Publish(truth, x.cmd, x.ids);
    forall q | Loose(ys, q) ensures TrackedAt(exact, v, ys, next, q) {
      LooseLess(xs, x, q);
      assert SameAt(truth, next, q);
      TrackMore(exact, v, xs, x, truth, next, q);
    }
    forall k, q | 0 <= k < |ys| && Owns(ys[k], q) ensures TrackedAt(exact, Due(v, ys[k]), ys, next, q) {
      if k < |xs| {
        assert ys[k] == xs[k] && ys[|xs|] == x;
        OwnsAlone(ys, k, |xs|, q);
        assert SameAt(truth, next, q);
        TrackMore(exact, Due(v, xs[k]), xs, x, truth, next, q);
      } else {
        OwnPaths(exact, v, xs, truth, x, q);
        TrackMore(exact, Due(v, x), xs, x, next, next, q);
      }
    }
  }

  lemma OwnPaths(exact: bool, v: PathView, xs: seq<Flight>, truth: PathView, x: Flight, q: Path)
    requires Holds(exact, v, xs, truth) && Stands(v, x) && ApartFrom(xs, x.cmd) && Given(x) && Unborn(v, xs + [x])
    requires PlanOf(truth, x.cmd) == Does(x.op) && Valid(truth, x.cmd) && Owns(x, q)
    ensures TrackedAt(exact, Due(v, x), xs, Publish(truth, x.cmd, x.ids), q)
  {
    var rel := (a, b) => Alike(exact, Patched(a, xs), b);
    LooseUpToModes(exact, v, xs, truth, x.cmd);
    PatchesNobodyNew(v, xs, x);
    forall id, meta | id in x.ids ensures rel(Entry(id, meta), Entry(id, meta)) { PatchedKeeps(Entry(id, meta), xs); }
    hide Holds, Apart, PlanOf, Valid, Disjoint, Roots, Patched, Covers, Explicit, SameModes, ApartFrom, UpToModes,
         RelatedFor;
    PublishRelates(rel, v, truth, x.cmd, x.ids, q);
  }

  lemma OwnsAlone(xs: seq<Flight>, j: nat, k: nat, q: Path)
    requires Apart(xs) && j < |xs| && k < |xs| && j != k && Covers(Roots(xs[j].cmd), q)
    ensures !Covers(Roots(xs[k].cmd), q)
  {
    var a, b := if j < k then j else k, if j < k then k else j;
    assert Disjoint(Roots(xs[a].cmd), Roots(xs[b].cmd));
    SymmetricDisjoint(Roots(xs[a].cmd), Roots(xs[b].cmd));
    ConsultsElsewhere(xs[j].cmd, Roots(xs[k].cmd), q);
  }

  /** A recorded mode change is for an inode the cache holds, so for none that is only being created. */
  lemma PatchesNobodyNew(v: PathView, xs: seq<Flight>, x: Flight)
    requires AllStand(v, xs) && Unborn(v, xs + [x])
    ensures forall k, id :: 0 <= k < |xs| && id in x.ids ==> !Patches(xs[k], id)
  {
    forall k, id | 0 <= k < |xs| && id in x.ids ensures !Patches(xs[k], id) {
      assert Stands(v, xs[k]);
      ChmodIsChmod(v, xs[k]);
      assert (xs + [x])[|xs|] == x;
    }
  }

  // ── Publishing ─────────────────────────────────────────────────────────────

  /** What is published, with `v` the cache at that moment: a hard link publishes the entry it read
      before its transaction, a recursive copy reads its sources again, a mode change names the inode. */
  function Published(v: PathView, x: Flight): seq<Change>
    requires PlanOf(v, x.cmd) == Does(x.op) && Given(x)
  {
    match x.cmd
    case HardLink(_, p) => if x.source.Some? then [Put(p, x.source.value)] else []
    case Cp(src, dest, _, order, _) =>
      if v[src].meta.kind == Directory then CopyPuts(CpPlan(v, src, dest, order, map[]), x.ids)
      else Changes(v, x.cmd, x.ids)
    case ChangeMode(_, mode) => [PatchMode(x.op.id, mode)]
    case _ => Changes(v, x.cmd, x.ids)
  }

  function Landed(v: PathView, x: Flight): PathView
    requires PlanOf(v, x.cmd) == Does(x.op) && Given(x)
  {
    ApplyChanges(v, Published(v, x))
  }

  /** The second reading finds what the plan read. */
  predicate Faithful(v: PathView, x: Flight) {
    match x.cmd
    case HardLink(existing, _) => existing in v && x.source == Some(v[existing])
    case Cp(src, _, _, _, _) => src in v && v[src].meta.kind == Directory ==> SameModes(v, x.cmd)
    case _ => true
  }

  /** Faithful, or a hard link to an inode one of whose mode changes has yet to be published. */
  predicate Clean(v: PathView, xs: seq<Flight>, k: nat) {
    && k < |xs|
    && (Faithful(v, xs[k]) ||
        (xs[k].cmd.HardLink? && xs[k].source.Some? && exists j ::
            0 <= j < |xs| && Patches(xs[j], xs[k].source.value.id)))
  }

  /** Mode changes are published in the order in which they were recorded. */
  predicate InTurn(xs: seq<Flight>, k: nat)
    requires k < |xs|
  {
    xs[k].op.ChmodOp? ==> forall j :: 0 <= j < k ==> !xs[j].op.ChmodOp?
  }

  function Without(xs: seq<Flight>, k: nat): seq<Flight>
    requires k < |xs|
  {
    xs[..k] + xs[k + 1..]
  }

  lemma PublishedRelates(exact: bool, v: PathView, x: Flight)
    requires Stands(v, x) && Given(x) && !x.cmd.ChangeMode? && (exact ==> Faithful(v, x))
    ensures RelatedChanges((a, b) => Alike(exact, a, b), Published(v, x), Changes(v, x.cmd, x.ids))
  {
    if x.cmd.Rm? || x.cmd.Mv? {
      forall i | 0 <= i < |Changes(v, x.cmd, x.ids)| ensures !Changes(v, x.cmd, x.ids)[i].PatchMode? {
        ChangeInside(v, x.cmd, x.ids, i);
      }
    }
  }

  lemma LandedRelates(exact: bool, v: PathView, x: Flight, q: Path)
    requires Stands(v, x) && Given(x) && !x.cmd.ChangeMode? && (exact ==> Faithful(v, x))
    ensures RelatedAt((a, b) => Alike(exact, a, b), Landed(v, x), Due(v, x), q)
  {
    PublishedRelates(exact, v, x);
    hide Published, Changes, Faithful;
    ApplyRelated((a, b) => Alike(exact, a, b), v, v, Published(v, x), Changes(v, x.cmd, x.ids), q);
  }

  lemma LandsInside(v: PathView, x: Flight)
    requires Stands(v, x) && Given(x) && !x.cmd.ChangeMode?
    ensures SameOutside(v, Landed(v, x), Roots(x.cmd))
  {
    PublishedRelates(false, v, x);
    var cs, ds := Published(v, x), Changes(v, x.cmd, x.ids);
    forall i | 0 <= i < |cs| ensures Touches(cs[i], Roots(x.cmd)) {
      ChangeInside(v, x.cmd, x.ids, i);
      assert RelatedChange((a, b) => Alike(false, a, b), cs[i], ds[i]);
    }
    hide Published, Changes, Covers;
    ChangesStayInside(v, cs, Roots(x.cmd));
  }

  ghost predicate Named(v: PathView, id: Id) {
    exists p :: p in v && v[p].id == id
  }

  lemma {:induction false} ChangesName(v: PathView, cs: seq<Change>, ids: seq<Id>, q: Path)
    requires forall i :: 0 <= i < |cs| && cs[i].Put? ==> cs[i].entry.id in ids || Named(v, cs[i].entry.id)
    ensures q in ApplyChanges(v, cs) ==> ApplyChanges(v, cs)[q].id in ids || Named(v, ApplyChanges(v, cs)[q].id)
  {
    if cs == [] {
      assert q in v ==> Named(v, v[q].id);
    } else {
      ChangesName(v, cs[..|cs| - 1], ids, q);
    }
  }

  lemma PublishedName(v: PathView, x: Flight, i: nat)
    requires Stands(v, x) && Given(x) && i < |Published(v, x)| && Published(v, x)[i].Put?
    ensures Published(v, x)[i].entry.id in x.ids || Named(v, Published(v, x)[i].entry.id)
  {
    match x.cmd
    case Mv(_, _, _, _) => MoveNames(v, x, i);
    case HardLink(existing, _) => assert Named(v, v[existing].id);
    case Rm(_, _, _) => assert false;
    case ChangeMode(_, _) => assert false;
    case _ => assert Published(v, x)[i].entry.id == x.ids[i];
  }

  lemma MoveNames(v: PathView, x: Flight, i: nat)
    requires x.cmd.Mv? && Stands(v, x) && Given(x) && i < |Published(v, x)| && Published(v, x)[i].Put?
    ensures Named(v, Published(v, x)[i].entry.id)
  {
    hide PlanOf;
    var src, dest, order, hidden := x.cmd.src, x.cmd.dest, x.cmd.order, x.cmd.hidden;
    forall j | 0 <= j < |order| ensures order[j] in v && src <= order[j] { assert order[j] in order; }
    MovePutsShape(v, src, dest, order);
    hide MovePuts;
    var j := i - |order| - |hidden|;
    assert Published(v, x)[i] == MovePuts(v, src, dest, order)[j];
    assert Named(v, v[order[j]].id);
  }

  /** Publication brings in no ids but the flight's own. */
  lemma LandedUnborn(v: PathView, xs: seq<Flight>, k: nat)
    requires k < |xs| && Unborn(v, xs) && Stands(v, xs[k]) && Given(xs[k])
    ensures Unborn(Landed(v, xs[k]), Without(xs, k))
  {
    var x, ys := xs[k], Without(xs, k);
    var w := Landed(v, x);
    forall i | 0 <= i < |Published(v, x)| && Published(v, x)[i].Put?
      ensures Published(v, x)[i].entry.id in x.ids || Named(v, Published(v, x)[i].entry.id)
    {
      PublishedName(v, x, i);
    }
    hide Stands, Published, PlanOf;
    forall j, q | 0 <= j < |ys| && q in w ensures w[q].id !in ys[j].ids {
      var o := if j < k then j else j + 1;
      assert ys[j] == xs[o];
      ChangesName(v, Published(v, x), x.ids, q);
    }
    forall i, j, id | 0 <= i < j < |ys| && id in ys[i].ids ensures id !in ys[j].ids {
      assert ys[i] == xs[if i < k then i else i + 1] && ys[j] == xs[if j < k then j else j + 1];
    }
  }

  // ── What publication keeps ─────────────────────────────────────────────────

  lemma SameStands(v: PathView, w: PathView, y: Flight)
    requires Stands(v, y) && Agrees(v, w, y.cmd)
    ensures Stands(w, y) && UpToModes(v, w, y.cmd) && RelatedFor((a, b) => a == b, v, w, y.cmd)
  {
    forall q | Consults(y.cmd, q)
      ensures RelatedAt((a, b) => Alike(false, a, b), v, w, q) && RelatedAt((a, b) => a == b, v, w, q)
    {
      assert SameAt(v, w, q);
    }
    hide PlanOf, Valid, Explicit;
    PlanAlike(v, w, y.cmd);
    if y.cmd.HardLink? { RootRelated((a, b) => a == b, v, w, y.cmd, y.cmd.existing); }
    if y.cmd.Cp? && y.cmd.src == [] {
      forall i | 0 <= i < |y.cmd.order| ensures y.cmd.order[i] in w && w[y.cmd.order[i]] == v[y.cmd.order[i]] {
        CoveredBy(Roots(y.cmd), [], y.cmd.order[i]);
        assert Consults(y.cmd, y.cmd.order[i]);
        assert SameAt(v, w, y.cmd.order[i]);
      }
    }
  }

  lemma ElsewhereStands(v: PathView, w: PathView, roots: set<Path>, y: Flight)
    requires Stands(v, y) && SameOutside(v, w, roots) && Disjoint(roots, Roots(y.cmd))
    ensures Agrees(v, w, y.cmd) && Stands(w, y)
  {
    hide Stands;
    forall q | Consults(y.cmd, q) ensures SameAt(v, w, q) { ConsultsElsewhere(y.cmd, roots, q); }
    SameStands(v, w, y);
  }

  lemma PatchedStands(v: PathView, id: Id, mode: int, y: Flight)
    requires Stands(v, y) && (y.cmd.Cp? ==> y.cmd.src != [])
    ensures Stands(ApplyChange(v, PatchMode(id, mode)), y)
  {
    var w := ApplyChange(v, PatchMode(id, mode));
    OnlyPatched(v, id, mode);
    ExplicitPlan(v, w, y.cmd);
    hide PlanOf;
  }

  lemma OnlyPatched(v: PathView, id: Id, mode: int)
    ensures OnlyModes(v, ApplyChange(v, PatchMode(id, mode)))
  {
  }

  lemma NoRoot(a: Cmd, b: Cmd)
    requires Disjoint(Roots(a), Roots(b))
    ensures [] !in Roots(b)
  {
    var r :| r in Roots(a);
    assert [] <= r;
  }

  lemma {:induction false} PatchedConcat(e: Entry, a: seq<Flight>, b: seq<Flight>)
    ensures Patched(e, a + b) == Patched(Patched(e, a), b)
    decreases |b|
  {
    if b == [] {
      assert a + b == a;
    } else {
      var n := |b| - 1;
      assert (a + b)[..|a| + n] == a + b[..n];
      PatchedConcat(e, a, b[..n]);
      PatchedKeeps(e, a);
    }
  }

  function PatchedBy(e: Entry, x: Flight): Entry {
    if Patches(x, e.id) then e.(meta := e.meta.(mode := x.op.mode)) else e
  }

  /** The next flight to publish can be taken out and published first. */
  lemma PatchedFirst(e: Entry, xs: seq<Flight>, k: nat)
    requires k < |xs| && InTurn(xs, k)
    ensures Patched(e, xs) == Patched(PatchedBy(e, xs[k]), Without(xs, k))
  {
    var x, a, b := xs[k], xs[..k], xs[k + 1..];
    assert xs == a + ([x] + b) && Without(xs, k) == a + b;
    assert [x][..0] == [];
    assert Patched(Patched(e, a), [x]) == PatchedBy(Patched(e, a), x);
    PatchedConcat(e, a, [x] + b);
    PatchedConcat(Patched(e, a), [x], b);
    PatchedConcat(PatchedBy(e, x), a, b);
    PatchedKeeps(e, a);
    PatchedKeeps(PatchedBy(e, x), a);
  }

  lemma {:induction false} PatchedHeals(d: Entry, e: Entry, xs: seq<Flight>, j: nat)
    requires Alike(false, d, e) && j < |xs| && Patches(xs[j], e.id)
    ensures Patched(d, xs) == Patched(e, xs)
  {
    var n := |xs| - 1;
    if j < n { PatchedHeals(d, e, xs[..n], j); } else { PatchedKeeps(d, xs[..n]); PatchedKeeps(e, xs[..n]); }
  }

  lemma AlikePatched(exact: bool, d: Entry, e: Entry, xs: seq<Flight>)
    requires Alike(exact, d, e)
    ensures Alike(exact, Patched(d, xs), Patched(e, xs))
  {
    PatchedKeeps(d, xs);
    PatchedKeeps(e, xs);
  }

  /** Moving one path from one view to the other, and one flight out of the list. */
  lemma TrackFirst(exact: bool, u: PathView, w: PathView, xs: seq<Flight>, k: nat, truth: PathView, q: Path)
    requires k < |xs| && InTurn(xs, k) && TrackedAt(exact, u, xs, truth, q)
    requires RelatedAt((a, b) => b == PatchedBy(a, xs[k]), u, w, q)
    ensures TrackedAt(exact, w, Without(xs, k), truth, q)
  {
    if q in u { PatchedFirst(u[q], xs, k); }
  }

  lemma TrackOwn(exact: bool, v: PathView, xs: seq<Flight>, k: nat, truth: PathView, q: Path)
    requires k < |xs| && Stands(v, xs[k]) && Given(xs[k]) && !xs[k].cmd.ChangeMode?
    requires TrackedAt(exact, Due(v, xs[k]), xs, truth, q)
    ensures TrackedAt(exact && Clean(v, xs, k), Landed(v, xs[k]), Without(xs, k), truth, q)
  {
    var x := xs[k];
    ChmodIsChmod(v, x);
    LandedRelates(false, v, x, q);
    if Faithful(v, x) { LandedRelates(true, v, x, q); }
    hide Stands, Faithful, PlanOf, Landed, Patched;
    if q in Due(v, x) {
      var d, e := Landed(v, x)[q], Due(v, x)[q];
      AlikePatched(false, d, e, xs);
      PatchedFirst(d, xs, k);
    }
    if exact && Clean(v, xs, k) && !Faithful(v, x) { TrackHealed(v, xs, k, truth, q); }
  }

  lemma TrackHealed(v: PathView, xs: seq<Flight>, k: nat, truth: PathView, q: Path)
    requires k < |xs| && Stands(v, xs[k]) && Given(xs[k]) && Clean(v, xs, k) && !Faithful(v, xs[k])
    requires TrackedAt(true, Due(v, xs[k]), xs, truth, q)
    ensures TrackedAt(true, Landed(v, xs[k]), Without(xs, k), truth, q)
  {
    var x := xs[k];
    var j :| 0 <= j < |xs| && Patches(xs[j], x.source.value.id);
    ChmodIsChmod(v, x);
    LandedRelates(false, v, x, q);
    OneChange(v, Put(x.cmd.path, x.source.value));
    OneChange(v, Put(x.cmd.path, v[x.cmd.existing]));
    if q in Landed(v, x) { PatchedFirst(Landed(v, x)[q], xs, k); }
    if q == x.cmd.path { PatchedHeals(x.source.value, v[x.cmd.existing], xs, j); }
  }

  function Place(k: nat, j: nat): nat {
    if j < k then j else j + 1
  }

  lemma WithoutAt(xs: seq<Flight>, k: nat, j: nat)
    requires k < |xs| && j < |Without(xs, k)|
    ensures Place(k, j) < |xs| && Place(k, j) != k && Without(xs, k)[j] == xs[Place(k, j)]
  {
  }

  lemma LooseWithout(xs: seq<Flight>, k: nat, q: Path)
    requires k < |xs| && Loose(Without(xs, k), q) && !Owns(xs[k], q)
    ensures Loose(xs, q)
  {
    hide Owns;
    forall j | 0 <= j < |xs| ensures !Owns(xs[j], q) {
      if j != k { assert Without(xs, k)[if j < k then j else j - 1] == xs[j]; }
    }
  }

  lemma ApartWithout(xs: seq<Flight>, k: nat)
    requires k < |xs| && Apart(xs)
    ensures Apart(Without(xs, k))
  {
    hide Disjoint;
    var ys := Without(xs, k);
    forall i, j | 0 <= i < j < |ys| ensures Disjoint(Roots(ys[i].cmd), Roots(ys[j].cmd)) {
      WithoutAt(xs, k, i);
      WithoutAt(xs, k, j);
    }
  }

  lemma ApartTwo(xs: seq<Flight>, j: nat, k: nat)
    requires Apart(xs) && j < |xs| && k < |xs| && j != k
    ensures Disjoint(Roots(xs[j].cmd), Roots(xs[k].cmd))
  {
    if k < j { SymmetricDisjoint(Roots(xs[k].cmd), Roots(xs[j].cmd)); }
  }

  /** A flight on other paths still stands after a publication. */
  lemma OthersStand(v: PathView, x: Flight, y: Flight)
    requires Stands(v, x) && Given(x) && Stands(v, y) && Disjoint(Roots(x.cmd), Roots(y.cmd))
    ensures Stands(Landed(v, x), y)
  {
    ChmodIsChmod(v, x);
    if x.cmd.ChangeMode? {
      NoRoot(x.cmd, y.cmd);
      OneChange(v, PatchMode(x.op.id, x.op.mode));
      hide PlanOf, Stands;
      PatchedStands(v, x.op.id, x.op.mode, y);
    } else {
      LandsInside(v, x);
      hide Stands;
      ElsewhereStands(v, Landed(v, x), Roots(x.cmd), y);
    }
  }

  lemma StandWithout(v: PathView, xs: seq<Flight>, k: nat)
    requires k < |xs| && AllStand(v, xs) && Apart(xs) && (forall j :: 0 <= j < |xs| ==> Given(xs[j]))
    ensures AllStand(Landed(v, xs[k]), Without(xs, k))
    ensures forall j :: 0 <= j < |Without(xs, k)| ==> Given(Without(xs, k)[j])
  {
    var ys := Without(xs, k);
    assert Stands(v, xs[k]);
    hide Stands, Apart, PlanOf, Given;
    forall j | 0 <= j < |ys| ensures Stands(Landed(v, xs[k]), ys[j]) && Given(ys[j]) {
      WithoutAt(xs, k, j);
      ApartTwo(xs, k, Place(k, j));
      OthersStand(v, xs[k], xs[Place(k, j)]);
    }
  }

  /** Under another flight's paths that flight will leave what it would have left before. */
  lemma OthersTracked(exact: bool, v: PathView, xs: seq<Flight>, k: nat, o: nat, truth: PathView, q: Path)
    requires Holds(exact, v, xs, truth) && k < |xs| && o < |xs| && o != k && InTurn(xs, k) && Owns(xs[o], q)
    ensures Stands(Landed(v, xs[k]), xs[o]) && Given(xs[o]) && Stands(v, xs[k]) && Given(xs[k])
    ensures TrackedAt(exact, Due(Landed(v, xs[k]), xs[o]), Without(xs, k), truth, q)
  {
    var x, y := xs[k], xs[o];
    var w, rel := Landed(v, x), (a, b) => b == PatchedBy(a, x);
    assert Stands(v, x) && Stands(v, y);
    ApartTwo(xs, k, o);
    OthersStand(v, x, y);
    RelatedAfter(v, xs, k, o);
    hide Stands, PlanOf, Apart, Landed, UpToModes, RelatedFor, Reflexive;
    PublishRelates(rel, v, w, y.cmd, y.ids, q);
    TrackFirst(exact, Due(v, y), Due(w, y), xs, k, truth, q);
  }

  lemma PatchLands(v: PathView, x: Flight)
    requires PlanOf(v, x.cmd) == Does(x.op) && Given(x) && x.cmd.ChangeMode?
    ensures var w := Landed(v, x); w.Keys == v.Keys && forall q :: q in v ==> w[q] == PatchedBy(v[q], x)
  {
    ChmodIsChmod(v, x);
    OneChange(v, PatchMode(x.op.id, x.op.mode));
  }

  lemma RelatedAfter(v: PathView, xs: seq<Flight>, k: nat, o: nat)
    requires AllStand(v, xs) && Apart(xs) && Unborn(v, xs) && (forall j :: 0 <= j < |xs| ==> Given(xs[j]))
    requires k < |xs| && o < |xs| && o != k && !xs[o].cmd.ChangeMode?
    ensures Stands(v, xs[k]) && Given(xs[k]) && Stands(v, xs[o]) && Stands(Landed(v, xs[k]), xs[o])
    ensures var w, y := Landed(v, xs[k]), xs[o];
            var rel := (a, b) => b == PatchedBy(a, xs[k]);
            BothPlan(v, w, y.cmd, y.ids) && RelatedFor(rel, v, w, y.cmd) && UpToModes(v, w, y.cmd)
                && Reflexive(rel, y.ids)
  {
    var x, y := xs[k], xs[o];
    var w, rel := Landed(v, x), (a, b) => b == PatchedBy(a, x);
    assert Stands(v, x) && Stands(v, y);
    ApartTwo(xs, k, o);
    OthersStand(v, x, y);
    ChmodIsChmod(v, x);
    if x.cmd.ChangeMode? {
      PatchLands(v, x);
      assert x.op.id !in y.ids;
      hide Landed, Stands, Disjoint, PlanOf;
      forall q ensures RelatedAt(rel, v, w, q) && RelatedAt((a, b) => Alike(false, a, b), v, w, q) {}
      assert Reflexive(rel, y.ids);
    } else {
      LandsInside(v, x);
      hide Published, Landed;
      ElsewhereStands(v, w, Roots(x.cmd), y);
      SameStands(v, w, y);
      forall q | Consults(y.cmd, q) ensures RelatedAt(rel, v, w, q) {
        assert RelatedAt((a, b) => a == b, v, w, q);
      }
      forall id, meta | id in y.ids ensures rel(Entry(id, meta), Entry(id, meta)) {
        assert PatchedBy(Entry(id, meta), x) == Entry(id, meta);
      }
    }
  }

  lemma LooseTracked(exact: bool, v: PathView, xs: seq<Flight>, k: nat, truth: PathView, q: Path)
    requires Holds(exact, v, xs, truth) && k < |xs| && InTurn(xs, k) && Loose(Without(xs, k), q)
    ensures Stands(v, xs[k]) && Given(xs[k])
    ensures TrackedAt(exact && Clean(v, xs, k), Landed(v, xs[k]), Without(xs, k), truth, q)
  {
    var x := xs[k];
    assert Stands(v, x);
    ChmodIsChmod(v, x);
    hide Stands, PlanOf, Published, Clean, Covers, Patched;
    if Owns(x, q) {
      TrackOwn(exact, v, xs, k, truth, q);
    } else {
      LooseWithout(xs, k, q);
      ElsewhereLands(v, x, q);
      TrackFirst(exact, v, Landed(v, x), xs, k, truth, q);
      Weaker(exact, exact && Clean(v, xs, k), Landed(v, x), Without(xs, k), truth, q);
    }
  }

  lemma ElsewhereLands(v: PathView, x: Flight, q: Path)
    requires Stands(v, x) && Given(x) && !Owns(x, q)
    ensures RelatedAt((a, b) => b == PatchedBy(a, x), v, Landed(v, x), q)
  {
    ChmodIsChmod(v, x);
    if x.cmd.ChangeMode? {
      PatchLands(v, x);
    } else {
      LandsInside(v, x);
      assert SameAt(v, Landed(v, x), q);
    }
  }

  /** Every publication keeps the cache on track, up to modes whatever its turn, and with its modes
      if it is clean. */
  lemma LandKeeps(exact: bool, v: PathView, xs: seq<Flight>, k: nat, truth: PathView)
    requires Holds(exact, v, xs, truth) && k < |xs| && InTurn(xs, k)
    ensures Stands(v, xs[k]) && Given(xs[k])
    ensures Holds(exact && Clean(v, xs, k), Landed(v, xs[k]), Without(xs, k), truth)
  {
    assert Stands(v, xs[k]);
    var w, ys, m := Landed(v, xs[k]), Without(xs, k), exact && Clean(v, xs, k);
    StandWithout(v, xs, k);
    ApartWithout(xs, k);
    LandedUnborn(v, xs, k);
    hide Stands, Apart, PlanOf, Landed, TrackedAt, Loose, Unborn, Clean, InTurn, Owns;
    forall q | Loose(ys, q) ensures TrackedAt(m, w, ys, truth, q) { LooseTracked(exact, v, xs, k, truth, q); }
    forall j, q | 0 <= j < |ys| && Owns(ys[j], q) ensures TrackedAt(m, Due(w, ys[j]), ys, truth, q) {
      WithoutAt(xs, k, j);
      OthersTracked(exact, v, xs, k, Place(k, j), truth, q);
      Weaker(exact, m, Due(w, ys[j]), ys, truth, q);
    }
  }

  lemma Weaker(exact: bool, m: bool, u: PathView, xs: seq<Flight>, truth: PathView, q: Path)
    requires TrackedAt(exact, u, xs, truth, q) && (m ==> exact)
    ensures TrackedAt(m, u, xs, truth, q)
  {
  }

  // ── When the modes come out right ──────────────────────────────────────────

  ghost predicate Wrong(v: PathView, xs: seq<Flight>, truth: PathView, q: Path) {
    Loose(xs, q) && !TrackedAt(true, v, xs, truth, q)
  }

  lemma OwnThenLoose(xs: seq<Flight>, k: nat, q: Path)
    requires Apart(xs) && k < |xs| && Owns(xs[k], q)
    ensures Loose(Without(xs, k), q)
  {
    var ys := Without(xs, k);
    forall j | 0 <= j < |ys| ensures !Owns(ys[j], q) {
      WithoutAt(xs, k, j);
      OwnsAlone(xs, k, Place(k, j), q);
    }
  }

  lemma LinkWrong(v: PathView, xs: seq<Flight>, k: nat, truth: PathView)
    requires Holds(true, v, xs, truth) && k < |xs| && xs[k].cmd.HardLink? && !Clean(v, xs, k)
    ensures Stands(v, xs[k]) && Given(xs[k]) && Wrong(Landed(v, xs[k]), Without(xs, k), truth, xs[k].cmd.path)
  {
    var x := xs[k];
    var q := x.cmd.path;
    assert Stands(v, x);
    ChmodIsChmod(v, x);
    OneChange(v, Put(q, x.source.value));
    OneChange(v, Put(q, v[x.cmd.existing]));
    CoveredBy(Roots(x.cmd), q, q);
    OwnThenLoose(xs, k, q);
    assert TrackedAt(true, Due(v, x), xs, truth, q);
    PatchedFirst(x.source.value, xs, k);
    PatchedKeeps(x.source.value, xs);
    PatchedKeeps(v[x.cmd.existing], xs);
  }

  lemma {:induction false} CopiesAt(v: PathView, src: Path, dest: Path, order: seq<Path>, modes: Modes, ids: seq<Id>,
                                    i: nat)
    requires Lists(v, src, order) && src != [] && |ids| == |order| && i < |order|
    requires forall j :: 0 <= j < |order| ==> order[j] in v && src <= order[j]
    ensures var q := dest + order[i][|src|..];
            var w := ApplyChanges(v, CopyPuts(CpPlan(v, src, dest, order, modes), ids));
            q in w && w[q] == Entry(ids[i], SeenMeta(v[order[i]].meta, modes, order[i]))
  {
    var puts := CopyPuts(CpPlan(v, src, dest, order, modes), ids);
    forall a, b | 0 <= a < b < |puts| ensures puts[a].path != puts[b].path {
      MovedTo(src, dest, order[a], puts[b].path);
      MovedTo(src, dest, order[b], puts[b].path);
    }
    ApplyPuts(v, puts, puts[i].path);
  }

  lemma CopyWrong(v: PathView, xs: seq<Flight>, k: nat, truth: PathView) returns (q: Path)
    requires Holds(true, v, xs, truth) && k < |xs| && xs[k].cmd.Cp? && !Clean(v, xs, k)
    ensures Stands(v, xs[k]) && Given(xs[k]) && Wrong(Landed(v, xs[k]), Without(xs, k), truth, q)
  {
    var x := xs[k];
    var src, dest, order := x.cmd.src, x.cmd.dest, x.cmd.order;
    assert Stands(v, x);
    ChmodIsChmod(v, x);
    forall j | 0 <= j < |order| ensures order[j] in v && src <= order[j] && order[j] in x.cmd.modes {
      assert order[j] in order;
    }
    var i: nat :| i < |order| && v[order[i]].meta.mode != x.cmd.modes[order[i]];
    q := dest + order[i][|src|..];
    CopiesAt(v, src, dest, order, x.cmd.modes, x.ids, i);
    CopiesAt(v, src, dest, order, map[], x.ids, i);
    CoveredBy(Roots(x.cmd), dest, q);
    OwnThenLoose(xs, k, q);
    CopyDiffers(v, xs, k, truth, q, x.ids[i]);
  }

  lemma CopyDiffers(v: PathView, xs: seq<Flight>, k: nat, truth: PathView, q: Path, id: Id)
    requires Holds(true, v, xs, truth) && k < |xs| && Owns(xs[k], q) && id in xs[k].ids && Stands(v, xs[k])
    requires q in Due(v, xs[k]) && q in Landed(v, xs[k]) && Due(v, xs[k])[q] != Landed(v, xs[k])[q]
    requires Due(v, xs[k])[q].id == Landed(v, xs[k])[q].id == id
    ensures !TrackedAt(true, Landed(v, xs[k]), Without(xs, k), truth, q)
  {
    var x := xs[k];
    var d, e := Landed(v, x)[q], Due(v, x)[q];
    ChmodIsChmod(v, x);
    forall j | 0 <= j < |xs| ensures !Patches(xs[j], id) {
      assert Stands(v, xs[j]);
      ChmodIsChmod(v, xs[j]);
    }
    assert TrackedAt(true, Due(v, x), xs, truth, q);
    PatchedFirst(d, xs, k);
    PatchedKeeps(d, xs);
    PatchedKeeps(e, xs);
  }

  /** An unclean publication leaves a wrong mode, at a path that no flight will write again. */
  lemma UncleanIsWrong(v: PathView, xs: seq<Flight>, k: nat, truth: PathView) returns (q: Path)
    requires Holds(true, v, xs, truth) && k < |xs| && !Clean(v, xs, k)
    ensures Stands(v, xs[k]) && Given(xs[k]) && Wrong(Landed(v, xs[k]), Without(xs, k), truth, q)
  {
    assert Stands(v, xs[k]);
    hide Stands, Wrong, PlanOf, Holds;
    if xs[k].cmd.HardLink? {
      q := xs[k].cmd.path;
      LinkWrong(v, xs, k, truth);
    } else {
      q := CopyWrong(v, xs, k, truth);
    }
  }

  lemma StaysWrong(v: PathView, xs: seq<Flight>, k: nat, truth: PathView, q: Path)
    requires Holds(false, v, xs, truth) && k < |xs| && InTurn(xs, k) && Wrong(v, xs, truth, q)
    ensures Stands(v, xs[k]) && Given(xs[k]) && Wrong(Landed(v, xs[k]), Without(xs, k), truth, q)
  {
    var x, ys := xs[k], Without(xs, k);
    assert Stands(v, x);
    forall j | 0 <= j < |ys| ensures !Owns(ys[j], q) { WithoutAt(xs, k, j); }
    ElsewhereLands(v, x, q);
    if q in v { PatchedFirst(v[q], xs, k); }
  }

  /** The cache and the unpublished flights while nothing but publications happens. */
  ghost predicate Drains(vs: seq<PathView>, xss: seq<seq<Flight>>, ks: seq<nat>) {
    && |vs| == |xss| == |ks| + 1
    && forall i :: 0 <= i < |ks| ==> DrainStep(vs[i], xss[i], ks[i], vs[i + 1], xss[i + 1])
  }

  ghost predicate DrainStep(v: PathView, xs: seq<Flight>, k: nat, w: PathView, ys: seq<Flight>) {
    && k < |xs| && InTurn(xs, k) && PlanOf(v, xs[k].cmd) == Does(xs[k].op) && Given(xs[k])
    && w == Landed(v, xs[k]) && ys == Without(xs, k)
  }

  ghost predicate CleanUpTo(vs: seq<PathView>, xss: seq<seq<Flight>>, ks: seq<nat>, n: nat)
    requires Drains(vs, xss, ks) && n <= |ks|
  {
    forall i :: 0 <= i < n ==> Clean(vs[i], xss[i], ks[i])
  }

  lemma {:induction false} DrainTo(vs: seq<PathView>, xss: seq<seq<Flight>>, ks: seq<nat>, truth: PathView, n: nat)
    requires Drains(vs, xss, ks) && Holds(true, vs[0], xss[0], truth) && n <= |ks|
    ensures Holds(CleanUpTo(vs, xss, ks, n), vs[n], xss[n], truth)
    ensures !CleanUpTo(vs, xss, ks, n) ==> exists q :: Wrong(vs[n], xss[n], truth, q)
    decreases n
  {
    if n > 0 {
      DrainTo(vs, xss, ks, truth, n - 1);
      var m, v, xs, k := CleanUpTo(vs, xss, ks, n - 1), vs[n - 1], xss[n - 1], ks[n - 1];
      assert DrainStep(v, xs, k, vs[n], xss[n]);
      hide Holds, Wrong, Clean, Landed, Stands;
      LandKeeps(m, v, xs, k, truth);
      assert CleanUpTo(vs, xss, ks, n) <==> m && Clean(v, xs, k);
      if m && !Clean(v, xs, k) {
        var q := UncleanIsWrong(v, xs, k, truth);
      } else if !m {
        var q :| Wrong(v, xs, truth, q);
        StaysWrong(v, xs, k, truth, q);
      }
    }
  }

  lemma DrainedIs(exact: bool, v: PathView, truth: PathView)
    requires Holds(exact, v, [], truth)
    ensures OnlyModes(truth, v) && (exact ==> v == truth)
  {
    var none: seq<Flight> := [];
    forall q ensures (q in v <==> q in truth) && (q in v ==> Alike(exact, v[q], truth[q])) {
      assert Loose(none, q);
      assert TrackedAt(exact, v, none, truth, q);
    }
  }

  /** Whatever the order in which a session's flights publish, in the end the cache holds what is due
      up to modes; and it holds exactly that if and only if every publication was clean. */
  lemma DrainExactly(vs: seq<PathView>, xss: seq<seq<Flight>>, ks: seq<nat>, truth: PathView)
    requires Drains(vs, xss, ks) && Holds(true, vs[0], xss[0], truth) && xss[|ks|] == []
    ensures OnlyModes(truth, vs[|ks|])
    ensures vs[|ks|] == truth <==> forall i :: 0 <= i < |ks| ==> Clean(vs[i], xss[i], ks[i])
  {
    var n := |ks|;
    DrainTo(vs, xss, ks, truth, n);
    DrainedIs(CleanUpTo(vs, xss, ks, n), vs[n], truth);
    if !CleanUpTo(vs, xss, ks, n) {
      var q :| Wrong(vs[n], xss[n], truth, q);
    }
  }

  /** The same of the tables: they hold what is due, and the cache mirrors them in the end if and only if
      every publication was clean. */
  lemma DrainMirrors(vs: seq<PathView>, xss: seq<seq<Flight>>, ks: seq<nat>, truth: PathView, t: Tree)
    requires Drains(vs, xss, ks) && Holds(true, vs[0], xss[0], truth) && xss[|ks|] == [] && Mirrors(truth, t)
    ensures Mirrors(vs[|ks|], t) <==> forall i :: 0 <= i < |ks| ==> Clean(vs[i], xss[i], ks[i])
  {
    DrainExactly(vs, xss, ks, truth);
    hide Drains, Holds, Mirrors;
    if Mirrors(vs[|ks|], t) { MirrorUnique(vs[|ks|], truth, t); }
  }

  // ── What makes a publication unclean ───────────────────────────────────────

  /** The flight read another mode of this inode than `mode`, and publishes or stores what it read. */
  ghost predicate ReadsMode(v: PathView, y: Flight, id: Id, mode: int) {
    match y.cmd
    case HardLink(existing, _) => existing in v && v[existing].id == id && v[existing].meta.mode != mode
    case Cp(src, _, _, order, _) =>
      && src in v && v[src].meta.kind == Directory
      && exists i :: 0 <= i < |order| && order[i] in v && v[order[i]].id == id && v[order[i]].meta.mode != mode
    case _ => false
  }

  lemma PlansFaithfully(v: PathView, cmd: Cmd, held: set<Path>)
    requires Valid(v, cmd) && PlanOf(v, cmd).Does? && (cmd.Cp? ==> cmd.modes == map[])
    ensures Faithful(v, Planning(v, cmd, held))
  {
    if cmd.Cp? {
      var r := Resolved(v, cmd);
      forall i | 0 <= i < |cmd.order| ensures cmd.order[i] in v && cmd.order[i] in r.modes {
        assert cmd.order[i] in cmd.order;
      }
    }
  }

  /** A flight is faithful when it is planned, and stops being so exactly when a change of the mode of
      an inode it read is published, to another mode than it read. */
  lemma FaithfulUntil(v: PathView, x: Flight, y: Flight)
    requires Stands(v, x) && Given(x) && Stands(v, y) && Disjoint(Roots(x.cmd), Roots(y.cmd)) && Faithful(v, y)
    ensures Faithful(Landed(v, x), y) <==> !(x.cmd.ChangeMode? && ReadsMode(v, y, x.op.id, x.op.mode))
  {
    ChmodIsChmod(v, x);
    if x.cmd.ChangeMode? {
      PatchLands(v, x);
      hide Landed, PlanOf;
    } else {
      LandsInside(v, x);
      hide Landed;
      ElsewhereStands(v, Landed(v, x), Roots(x.cmd), y);
      FaithfulElsewhere(v, Landed(v, x), y);
    }
  }

  lemma FaithfulElsewhere(v: PathView, w: PathView, y: Flight)
    requires Stands(v, y) && Agrees(v, w, y.cmd) && Faithful(v, y)
    ensures Faithful(w, y)
  {
    hide PlanOf, Explicit, Agrees;
    match y.cmd
    case HardLink(existing, _) => AgreesAt(v, w, y.cmd, existing);
    case Cp(src, _, _, order, _) =>
      AgreesAt(v, w, y.cmd, src);
      forall i | 0 <= i < |order| ensures order[i] in v ==> order[i] in w && w[order[i]] == v[order[i]] {
        assert order[i] in order;
        assert SameAt(v, w, order[i]);
      }
    case _ =>
  }
}
