/** The mutations a session has under way: planned ones that wait for a blob, the sandbox lock or their
    turn, and recorded ones that have yet to publish. Each planned one carries the stamp of the scope
    it belongs to; when the scope is another one it is dead. Reservations keep the reserved paths apart.
    That keeps apart what the flights touch, with one exception: a segment of `mkdir -p` above the path
    its operation reserved, of which there can be two. */
module Flights {
  import opened Options
  import opened Tables
  import opened View
  import opened Commands
  import opened CommandLaw
  import opened Isolation
  import opened InFlight
  import opened Closure
  import Reservations

  type Stamp = Reservations.Stamp

  datatype Waiting = Waiting(flight: Flight, stamp: Stamp)

  /** `truth` is the view that will be cached once everything recorded is published; `exact` says that
      every publication since the last load was clean. */
  datatype Air = Air(planned: seq<Waiting>, recorded: seq<Flight>, truth: PathView, exact: bool)

  predicate IsLive(air: Air, now: Stamp, j: int) {
    0 <= j < |air.planned| && air.planned[j].stamp == now
  }

  predicate NoneLive(air: Air, now: Stamp) {
    forall j :: 0 <= j < |air.planned| ==> air.planned[j].stamp != now
  }

  /** What a flight touches lies under what its operation reserved; or it is a segment of `mkdir -p` above
      that, for an ancestor that was there when the operation reserved. */
  ghost predicate HeldFor(cmd: Cmd, held: set<Path>) {
    || (forall r :: r in Roots(cmd) ==> Covers(held, r))
    || (cmd.MkdirSegment? && exists h :: h in held && cmd.path <= h)
  }

  /** The directory a segment is to create is missing, and nobody is about to create it. */
  predicate Missing(entries: PathView, truth: PathView, cmd: Cmd) {
    cmd.MkdirSegment? ==> cmd.path !in entries && cmd.path !in truth
  }

  /** Somebody else has recorded the same segment, above what either operation reserved. */
  ghost predicate Beaten(truth: PathView, x: Flight) {
    x.cmd.MkdirSegment? && x.cmd.path in truth && PlanOf(truth, x.cmd) == Does(x.op) && !Covers(x.held, x.cmd.path)
  }

  ghost predicate Sane(x: Flight) {
    NormalCmd(x.cmd) && !LinksRoot(x.cmd) && HeldFor(x.cmd, x.held) && (x.cmd.MkdirSegment? ==> x.cmd.blind)
  }

  ghost predicate LiveOk(entries: PathView, recorded: seq<Flight>, truth: PathView, x: Flight) {
    && x.ids == [] && Sane(x)
    && ((Stands(entries, x) && ApartFrom(recorded, x.cmd) && Missing(entries, truth, x.cmd)) || Beaten(truth, x))
  }

  ghost predicate AllLive(entries: PathView, air: Air, now: Stamp) {
    forall j :: IsLive(air, now, j) ==> LiveOk(entries, air.recorded, air.truth, air.planned[j].flight)
  }

  ghost predicate AllRecorded(entries: PathView, recorded: seq<Flight>) {
    forall k :: 0 <= k < |recorded| ==> Sane(recorded[k]) && !Clashes(entries, recorded[k].cmd)
  }

  /** Reservations: what the operations under way reserved does not overlap. */
  ghost predicate HeldApart(air: Air, now: Stamp) {
    && (forall j, k :: IsLive(air, now, j) && IsLive(air, now, k) && j != k ==>
          Disjoint(air.planned[j].flight.held, air.planned[k].flight.held))
    && (forall j, k :: IsLive(air, now, j) && 0 <= k < |air.recorded| ==>
          Disjoint(air.planned[j].flight.held, air.recorded[k].held))
  }

  ghost predicate AirOk(entries: PathView, air: Air, now: Stamp) {
    && Holds(air.exact, entries, air.recorded, air.truth) && Closed(entries) && Closed(air.truth)
    && AllRecorded(entries, air.recorded) && AllLive(entries, air, now) && HeldApart(air, now)
  }

  function Grounded(v: PathView, planned: seq<Waiting>): Air {
    Air(planned, [], v, true)
  }

  lemma GroundedOk(v: PathView, planned: seq<Waiting>, now: Stamp)
    requires NoneLive(Grounded(v, planned), now) && Closed(v)
    ensures AirOk(v, Grounded(v, planned), now)
  {
    hide Closed;
    var none: seq<Flight> := [];
    assert forall q :: TrackedAt(true, v, none, v, q);
  }

  // ── What reservations keep apart ───────────────────────────────────────────

  predicate SameSegment(a: Cmd, b: Cmd) {
    a.MkdirSegment? && b.MkdirSegment? && a.path == b.path
  }

  lemma RootHangs(v: PathView, x: Flight, r: Path)
    requires Closed(v) && Stands(v, x) && r in Roots(x.cmd)
    ensures ParentOf(r) in v
  {
    if r in v { assert Hangs(v, r); }
  }

  lemma PrefixesCompare(p: Path, a: Path, b: Path)
    requires a <= p && b <= p
    ensures a <= b || b <= a
  {
    assert a == p[..|a|] && b == p[..|b|];
  }

  /** A path under what one operation reserved, and a path below it that another may touch. */
  lemma HeldMeet(a: set<Path>, b: set<Path>, r: Path, s: Path)
    requires Covers(a, r) && r <= s && (Covers(b, s) || exists g :: g in b && s <= g)
    ensures !Disjoint(a, b)
  {
    var h :| h in a && h <= r;
    if Covers(b, s) {
      var g :| g in b && g <= s;
      PrefixesCompare(s, h, g);
    } else {
      var g :| g in b && s <= g;
      assert h <= g;
    }
  }

  lemma HeldAt(x: Flight, r: Path)
    requires Sane(x) && r in Roots(x.cmd)
    ensures Covers(x.held, r) || (x.cmd.MkdirSegment? && exists g :: g in x.held && r <= g)
  {
  }

  /** The lower of two overlapping roots, from the side of the upper one. */
  lemma UpperIsTwin(v: PathView, x: Flight, y: Flight, r: Path, s: Path)
    requires Closed(v) && Stands(v, x) && Stands(v, y) && Sane(x) && Sane(y) && Disjoint(x.held, y.held)
    requires (x.cmd.MkdirSegment? ==> x.cmd.path !in v) && r in Roots(x.cmd) && s in Roots(y.cmd) && r <= s
    ensures SameSegment(x.cmd, y.cmd) && !Covers(x.held, x.cmd.path) && !Covers(y.held, y.cmd.path)
  {
    HeldAt(x, r);
    HeldAt(y, s);
    if Covers(x.held, r) { HeldMeet(x.held, y.held, r, s); }
    RootHangs(v, y, s);
    hide Closed, Stands, Sane, Disjoint;
    if r != s {
      assert r <= ParentOf(s);
      AncestorIn(v, ParentOf(s), r);
    } else if Covers(y.held, s) {
      HeldMeet(y.held, x.held, s, r);
      SymmetricDisjoint(x.held, y.held);
    }
  }

  /** Flights whose operations reserved apart touch apart, unless both create the same missing ancestor. */
  lemma ApartOrTwins(v: PathView, x: Flight, y: Flight)
    requires Closed(v) && Stands(v, x) && Stands(v, y) && Sane(x) && Sane(y) && Disjoint(x.held, y.held)
    requires (x.cmd.MkdirSegment? ==> x.cmd.path !in v) && (y.cmd.MkdirSegment? ==> y.cmd.path !in v)
    ensures || Disjoint(Roots(x.cmd), Roots(y.cmd))
            || (SameSegment(x.cmd, y.cmd) && !Covers(x.held, x.cmd.path) && !Covers(y.held, y.cmd.path))
  {
    SymmetricDisjoint(x.held, y.held);
    hide Closed, Stands, Sane;
    if !Disjoint(Roots(x.cmd), Roots(y.cmd)) {
      var r, s :| r in Roots(x.cmd) && s in Roots(y.cmd) && (r <= s || s <= r);
      if r <= s { UpperIsTwin(v, x, y, r, s); } else { UpperIsTwin(v, y, x, s, r); }
    }
  }

  // ── Planning ───────────────────────────────────────────────────────────────

  ghost predicate MayPlan(entries: PathView, air: Air, now: Stamp, cmd: Cmd, held: set<Path>) {
    && NormalCmd(cmd) && Valid(entries, cmd) && !LinksRoot(cmd) && PlanOf(entries, cmd).Does?
    && (cmd.Cp? ==> cmd.modes == map[]) && (cmd.MkdirSegment? ==> !cmd.blind) && HeldFor(cmd, held)
    && (forall j :: IsLive(air, now, j) ==> Disjoint(air.planned[j].flight.held, held))
    && (forall k :: 0 <= k < |air.recorded| ==> Disjoint(air.recorded[k].held, held))
  }

  function WithPlan(entries: PathView, air: Air, now: Stamp, cmd: Cmd, held: set<Path>): Air
    requires PlanOf(entries, cmd).Does?
  {
    air.(planned := air.planned + [Waiting(Planning(entries, cmd, held), now)])
  }

  lemma NewIsSane(entries: PathView, air: Air, now: Stamp, cmd: Cmd, held: set<Path>)
    requires MayPlan(entries, air, now, cmd, held)
    ensures var x := Planning(entries, cmd, held);
            && Sane(x) && Stands(entries, x) && Roots(x.cmd) == Roots(cmd)
            && (x.cmd.MkdirSegment? ==> x.cmd.path !in entries && x.cmd.path != [])
  {
    ResolvedPlan(entries, cmd, held);
  }

  lemma RecordedTwin(entries: PathView, air: Air, now: Stamp, k: nat)
    requires AirOk(entries, air, now) && k < |air.recorded| && air.recorded[k].cmd.MkdirSegment?
    ensures air.recorded[k].cmd.path in air.truth && air.recorded[k].cmd.path !in entries
  {
    var w := air.recorded[k];
    assert Stands(entries, w) && Given(w) && Sane(w) && !Clashes(entries, w.cmd);
    var p := w.cmd.path;
    CoveredBy(Roots(w.cmd), p, p);
    assert Owns(w, p);
    assert TrackedAt(air.exact, Due(entries, w), air.recorded, air.truth, p);
    OneChange(entries, Put(p, Entry(w.ids[0], Meta(Directory, w.cmd.mode, 0, None, None))));
  }

  lemma ApartFromRecorded(entries: PathView, air: Air, now: Stamp, x: Flight, k: nat)
    requires AirOk(entries, air, now) && k < |air.recorded| && Sane(x) && Stands(entries, x)
    requires x.cmd.MkdirSegment? ==> x.cmd.path !in entries
    requires Disjoint(air.recorded[k].held, x.held)
    ensures || Disjoint(Roots(air.recorded[k].cmd), Roots(x.cmd))
            || (SameSegment(air.recorded[k].cmd, x.cmd) && x.cmd.path in air.truth && !Covers(x.held, x.cmd.path))
  {
    var w := air.recorded[k];
    assert Stands(entries, w) && Sane(w);
    if w.cmd.MkdirSegment? { RecordedTwin(entries, air, now, k); }
    hide Closed, Stands, Sane, Holds, Disjoint, Roots;
    ApartOrTwins(entries, w, x);
  }

  /** A segment that somebody else has recorded, seen from what is due. */
  lemma NewlyBeaten(entries: PathView, air: Air, now: Stamp, x: Flight)
    requires AirOk(entries, air, now) && Stands(entries, x) && x.cmd.MkdirSegment? && x.cmd.path in air.truth
    requires x.cmd.path != [] && Sane(x)
    requires forall k :: 0 <= k < |air.recorded| ==>
               || Disjoint(Roots(air.recorded[k].cmd), Roots(x.cmd))
               || (SameSegment(air.recorded[k].cmd, x.cmd) && !Covers(x.held, x.cmd.path))
    requires x.cmd.path !in entries
    ensures Beaten(air.truth, x)
  {
    var p := x.cmd.path;
    var q := ParentOf(p);
    forall k | 0 <= k < |air.recorded| ensures !Owns(air.recorded[k], q) {
      var w := air.recorded[k];
      assert forall r :: r in Roots(w.cmd) && r <= q ==> r <= p && |r| < |p|;
    }
    assert Loose(air.recorded, q);
    assert TrackedAt(air.exact, entries, air.recorded, air.truth, q);
    PatchedKeeps(entries[q], air.recorded);
    if Covers(x.held, p) {
      forall k | 0 <= k < |air.recorded| ensures !Owns(air.recorded[k], p) {
        assert p in Roots(x.cmd);
      }
      assert Loose(air.recorded, p);
    }
  }

  lemma NewLive(entries: PathView, air: Air, now: Stamp, cmd: Cmd, held: set<Path>)
    requires AirOk(entries, air, now) && MayPlan(entries, air, now, cmd, held)
    ensures LiveOk(entries, air.recorded, air.truth, Planning(entries, cmd, held))
  {
    var x := Planning(entries, cmd, held);
    NewIsSane(entries, air, now, cmd, held);
    forall k | 0 <= k < |air.recorded|
      ensures Disjoint(Roots(air.recorded[k].cmd), Roots(x.cmd))
              || (SameSegment(air.recorded[k].cmd, x.cmd) && x.cmd.path in air.truth && !Covers(x.held, x.cmd.path))
    {
      ApartFromRecorded(entries, air, now, x, k);
    }
    hide Stands, Sane, Disjoint, Roots, AirOk, Beaten;
    if x.cmd.MkdirSegment? && x.cmd.path in air.truth { NewlyBeaten(entries, air, now, x); }
  }

  lemma PlannedOk(entries: PathView, air: Air, now: Stamp, cmd: Cmd, held: set<Path>)
    requires AirOk(entries, air, now) && MayPlan(entries, air, now, cmd, held)
    ensures AirOk(entries, WithPlan(entries, air, now, cmd, held), now)
  {
    NewLive(entries, air, now, cmd, held);
    var n := WithPlan(entries, air, now, cmd, held);
    hide Holds, Closed, Valid, PlanOf, NormalCmd, Disjoint, LiveOk, AllRecorded, HeldFor;
    forall j | IsLive(n, now, j) ensures LiveOk(entries, n.recorded, n.truth, n.planned[j].flight) {
      if j < |air.planned| { assert IsLive(air, now, j); }
    }
    forall j, k | IsLive(n, now, j) && IsLive(n, now, k) && j != k
      ensures Disjoint(n.planned[j].flight.held, n.planned[k].flight.held)
    {
      if j < |air.planned| { assert IsLive(air, now, j); }
      if k < |air.planned| { assert IsLive(air, now, k); }
      if j >= |air.planned| { SymmetricDisjoint(n.planned[k].flight.held, n.planned[j].flight.held); }
    }
    forall j, k | IsLive(n, now, j) && 0 <= k < |n.recorded|
      ensures Disjoint(n.planned[j].flight.held, n.recorded[k].held)
    {
      if j < |air.planned| { assert IsLive(air, now, j); }
      else { SymmetricDisjoint(n.recorded[k].held, n.planned[j].flight.held); }
    }
  }

  // ── Leaving the queue of planned flights ───────────────────────────────────

  function Dropped(air: Air, j: nat): Air
    requires j < |air.planned|
  {
    air.(planned := air.planned[..j] + air.planned[j + 1..])
  }

  lemma DroppedLive(air: Air, now: Stamp, j: nat, i: int)
    requires j < |air.planned| && IsLive(Dropped(air, j), now, i)
    ensures IsLive(air, now, Place(j, i)) && Place(j, i) != j && Dropped(air, j).planned[i] == air.planned[Place(j, i)]
  {
  }

  lemma DroppedOk(entries: PathView, air: Air, now: Stamp, j: nat)
    requires AirOk(entries, air, now) && j < |air.planned|
    ensures AirOk(entries, Dropped(air, j), now)
  {
    hide Holds, Closed, LiveOk, Disjoint, AllRecorded;
    var n := Dropped(air, j);
    forall i | IsLive(n, now, i) ensures LiveOk(entries, n.recorded, n.truth, n.planned[i].flight) {
      DroppedLive(air, now, j, i);
    }
    forall i, k | IsLive(n, now, i) && IsLive(n, now, k) && i != k
      ensures Disjoint(n.planned[i].flight.held, n.planned[k].flight.held)
    {
      DroppedLive(air, now, j, i);
      DroppedLive(air, now, j, k);
    }
    forall i, k | IsLive(n, now, i) && 0 <= k < |n.recorded|
      ensures Disjoint(n.planned[i].flight.held, n.recorded[k].held)
    {
      DroppedLive(air, now, j, i);
    }
  }

  // ── Recording ──────────────────────────────────────────────────────────────

  function Boarded(air: Air, j: nat, ids: seq<Id>): Flight
    requires j < |air.planned|
  {
    air.planned[j].flight.(ids := ids)
  }

  /** The flight is recorded, or its transaction has committed, with these ids. */
  function TakenOff(air: Air, j: nat, ids: seq<Id>): Air
    requires j < |air.planned|
  {
    var d, cmd := Dropped(air, j), air.planned[j].flight.cmd;
    d.(recorded := air.recorded + [Boarded(air, j, ids)],
       truth := if PlanOf(air.truth, cmd).Does? && |ids| == Mints(PlanOf(air.truth, cmd).op)
                then Publish(air.truth, cmd, ids) else air.truth)
  }

  lemma RecordFlight(exact: bool, v: PathView, xs: seq<Flight>, truth: PathView, x: Flight)
    requires Holds(exact, v, xs, truth) && Stands(v, x) && ApartFrom(xs, x.cmd) && Given(x) && Unborn(v, xs + [x])
    ensures PlanOf(truth, x.cmd) == Does(x.op) && Valid(truth, x.cmd)
    ensures Holds(exact, v, xs + [x], Publish(truth, x.cmd, x.ids))
  {
    PlansInTruth(exact, v, xs, truth, x);
    ChmodIsChmod(v, x);
    hide Holds, Stands, Valid, PlanOf, Unborn, Publish;
    if x.cmd.ChangeMode? { RecordChmod(exact, v, xs, truth, x); } else { RecordOther(exact, v, xs, truth, x); }
  }

  /** Whatever else is under way, a live flight's plan is what planning on the view that is due would give. */
  lemma LiveStands(entries: PathView, air: Air, now: Stamp, j: nat)
    requires AirOk(entries, air, now) && IsLive(air, now, j)
    ensures var x := air.planned[j].flight;
            LiveOk(entries, air.recorded, air.truth, x) && PlanOf(air.truth, x.cmd) == Does(x.op)
                && Valid(air.truth, x.cmd)
  {
    var x := air.planned[j].flight;
    assert LiveOk(entries, air.recorded, air.truth, x);
    if !Beaten(air.truth, x) { PlansInTruth(air.exact, entries, air.recorded, air.truth, x); }
  }

  lemma ClashesAlike(v: PathView, w: PathView, cmd: Cmd)
    requires UpToModes(v, w, cmd) && Clashes(w, cmd) && (cmd.Cp? ==> cmd.src != [] || forall q :: Consults(cmd, q))
    ensures Clashes(v, cmd)
  {
    match cmd
    case MkdirSegment(p, _, _) => RootRelated((a, b) => Alike(false, a, b), v, w, cmd, p);
    case MakeSymlink(_, p) => RootRelated((a, b) => Alike(false, a, b), v, w, cmd, p);
    case Cp(src, dest, _, order, _) =>
      RootRelated((a, b) => Alike(false, a, b), v, w, cmd, src);
      var i :| 0 <= i < |order| && src <= order[i] && DestOf(src, dest, order[i]) in w;
      var q := DestOf(src, dest, order[i]);
      if src != [] { CoveredBy(Roots(cmd), dest, q); }
      assert Consults(cmd, q);
      assert RelatedAt((a, b) => Alike(false, a, b), v, w, q);
    case _ =>
  }

  lemma RootConsultsAll(cmd: Cmd)
    requires cmd.Cp?
    ensures cmd.src != [] || forall q :: Consults(cmd, q)
  {
    if cmd.src == [] {
      forall q ensures Consults(cmd, q) { CoveredBy(Roots(cmd), [], q); }
    }
  }

  /** The view that is due keeps its shape around a path that a flight does not touch. */
  lemma DueElsewhere(truth: PathView, x: Flight, q: Path)
    requires Valid(truth, x.cmd) && PlanOf(truth, x.cmd) == Does(x.op) && Given(x) && !Covers(Roots(x.cmd), q)
    ensures var n := Publish(truth, x.cmd, x.ids);
            (q in n <==> q in truth) && (q in truth ==> n[q].id == truth[q].id && n[q].meta.kind == truth[q].meta.kind)
  {
    if x.cmd.ChangeMode? {
      ChmodIsChmod(truth, x);
      OneChange(truth, PatchMode(x.op.id, x.op.mode));
    } else {
      PublishStaysInside(truth, x.cmd, x.ids);
      assert SameAt(truth, Publish(truth, x.cmd, x.ids), q);
    }
  }

  lemma SegmentPlan(v: PathView, w: PathView, x: Flight)
    requires x.cmd.MkdirSegment? && PlanOf(v, x.cmd) == Does(x.op) && x.cmd.path in w
    requires var q := ParentOf(x.cmd.path);
             q in v && q in w && w[q].id == v[q].id && w[q].meta.kind == v[q].meta.kind
    requires x.cmd.blind && !Covers(x.held, x.cmd.path)
    ensures Beaten(w, x)
  {
  }

  /** A beaten flight stays beaten: nobody removes what somebody else created above its reservation. */
  lemma StaysBeaten(truth: PathView, x: Flight, y: Flight)
    requires Closed(truth) && Valid(truth, x.cmd) && PlanOf(truth, x.cmd) == Does(x.op) && Given(x) && Sane(x)
    requires (x.cmd.MkdirSegment? ==> x.cmd.path !in truth) && Beaten(truth, y) && Sane(y)
    requires Disjoint(x.held, y.held)
    ensures Beaten(Publish(truth, x.cmd, x.ids), y)
  {
    var p := y.cmd.path;
    var q := ParentOf(p);
    HeldAt(y, p);
    forall r | r in Roots(x.cmd) ensures !(r <= p) {
      HeldAt(x, r);
      if r <= p && Covers(x.held, r) {
        HeldMeet(x.held, y.held, r, p);
      } else if r <= p {
        AncestorIn(truth, p, r);
      }
    }
    assert forall r :: r in Roots(x.cmd) ==> !(r <= q);
    hide Closed, Sane;
    DueElsewhere(truth, x, p);
    DueElsewhere(truth, x, q);
    SegmentPlan(truth, Publish(truth, x.cmd, x.ids), y);
  }

  /** Recording one of two twins beats the other. */
  lemma TwinBeaten(truth: PathView, x: Flight, y: Flight)
    requires SameSegment(x.cmd, y.cmd) && PlanOf(truth, x.cmd) == Does(x.op) && PlanOf(truth, y.cmd) == Does(y.op)
             && Given(x)
    requires y.cmd.blind && y.cmd.path != [] && !Covers(y.held, y.cmd.path)
    ensures Beaten(Publish(truth, x.cmd, x.ids), y)
  {
    OneChange(truth, Put(x.cmd.path, Entry(x.ids[0], Meta(Directory, x.cmd.mode, 0, None, None))));
    SegmentPlan(truth, Publish(truth, x.cmd, x.ids), y);
  }

  lemma TakenOffTruth(entries: PathView, air: Air, now: Stamp, j: nat, ids: seq<Id>)
    requires AirOk(entries, air, now) && IsLive(air, now, j) && |ids| == Mints(air.planned[j].flight.op)
    requires !Clashes(air.truth, air.planned[j].flight.cmd)
    ensures var x := air.planned[j].flight;
            && Stands(entries, x) && ApartFrom(air.recorded, x.cmd) && Missing(entries, air.truth, x.cmd) && Sane(x)
            && PlanOf(air.truth, x.cmd) == Does(x.op) && Valid(air.truth, x.cmd)
            && Closed(Publish(air.truth, x.cmd, ids)) && !Clashes(entries, x.cmd)
  {
    LiveStands(entries, air, now, j);
    var x := air.planned[j].flight;
    assert Stands(entries, x);
    ClosedPublish(air.truth, x.cmd, ids);
    PlansInTruth(air.exact, entries, air.recorded, air.truth, x);
    AlikeBack(entries, air.truth, x.cmd);
    if x.cmd.Cp? { RootConsultsAll(x.cmd); }
    if Clashes(entries, x.cmd) { ClashesAlike(air.truth, entries, x.cmd); }
  }

  lemma AlikeBack(v: PathView, w: PathView, cmd: Cmd)
    requires UpToModes(v, w, cmd)
    ensures UpToModes(w, v, cmd)
  {
    forall q | Consults(cmd, q) ensures RelatedAt((a, b) => Alike(false, a, b), w, v, q) {
      assert RelatedAt((a, b) => Alike(false, a, b), v, w, q);
    }
  }

  /** A live flight after another one was recorded. */
  lemma OtherLive(entries: PathView, air: Air, now: Stamp, j: nat, ids: seq<Id>, i: nat)
    requires AirOk(entries, air, now) && IsLive(air, now, j) && IsLive(air, now, i) && i != j
    requires |ids| == Mints(air.planned[j].flight.op) && !Clashes(air.truth, air.planned[j].flight.cmd)
    ensures PlanOf(air.truth, air.planned[j].flight.cmd) == Does(air.planned[j].flight.op)
    ensures var x := Boarded(air, j, ids);
            LiveOk(entries, air.recorded + [x], Publish(air.truth, x.cmd, ids), air.planned[i].flight)
  {
    var x, y := Boarded(air, j, ids), air.planned[i].flight;
    TakenOffTruth(entries, air, now, j, ids);
    LiveStands(entries, air, now, i);
    assert Disjoint(x.held, y.held);
    assert x.cmd.MkdirSegment? ==> x.cmd.path !in air.truth;
    hide Closed, Stands, Sane, Holds, Disjoint, Roots, Publish, PlanOf, Valid, AirOk, ApartFrom, Clashes;
    var n := Publish(air.truth, x.cmd, ids);
    if Beaten(air.truth, y) {
      ClosedTruth(entries, air, now);
      StaysBeaten(air.truth, x, y);
    } else {
      SameStanding(entries, air.planned[j].flight, ids);
      ClosedTruth(entries, air, now);
      ApartOrTwins(entries, x, y);
      if Disjoint(Roots(x.cmd), Roots(y.cmd)) {
        ApartFromMore(air.recorded, x, y.cmd);
        StillMissing(air.truth, x, y);
      } else {
        SegmentPath(entries, y);
        TwinBeaten(air.truth, x, y);
      }
    }
  }

  lemma SegmentPath(v: PathView, y: Flight)
    requires Stands(v, y) && y.cmd.MkdirSegment? && Sane(y)
    ensures y.cmd.path != [] && y.cmd.blind
  {
  }

  lemma ClosedTruth(entries: PathView, air: Air, now: Stamp)
    requires AirOk(entries, air, now)
    ensures Closed(entries) && Closed(air.truth)
  {
  }

  lemma StillMissing(truth: PathView, x: Flight, y: Flight)
    requires Valid(truth, x.cmd) && PlanOf(truth, x.cmd) == Does(x.op) && Given(x)
             && Disjoint(Roots(x.cmd), Roots(y.cmd))
    ensures y.cmd.MkdirSegment? && y.cmd.path !in truth ==> y.cmd.path !in Publish(truth, x.cmd, x.ids)
  {
    if y.cmd.MkdirSegment? {
      assert y.cmd.path in Roots(y.cmd);
      DueElsewhere(truth, x, y.cmd.path);
    }
  }

  lemma SameStanding(v: PathView, x: Flight, ids: seq<Id>)
    requires Stands(v, x) && Sane(x)
    ensures Stands(v, x.(ids := ids)) && Sane(x.(ids := ids))
  {
  }

  lemma ApartFromMore(xs: seq<Flight>, x: Flight, cmd: Cmd)
    requires ApartFrom(xs, cmd) && Disjoint(Roots(x.cmd), Roots(cmd))
    ensures ApartFrom(xs + [x], cmd)
  {
    hide Disjoint;
  }

  lemma TakenOffLive(entries: PathView, air: Air, now: Stamp, j: nat, ids: seq<Id>)
    requires AirOk(entries, air, now) && IsLive(air, now, j) && |ids| == Mints(air.planned[j].flight.op)
    requires !Clashes(air.truth, air.planned[j].flight.cmd)
    ensures AllLive(entries, TakenOff(air, j, ids), now)
  {
    hide PlanOf, Publish, Clashes, LiveOk, AirOk;
    var n := TakenOff(air, j, ids);
    forall i | IsLive(n, now, i) ensures LiveOk(entries, n.recorded, n.truth, n.planned[i].flight) {
      DroppedLive(air, now, j, i);
      OtherLive(entries, air, now, j, ids, Place(j, i));
    }
  }

  /** Recording a flight that does not clash leaves every other one standing, or beaten. */
  lemma TakenOffOk(entries: PathView, air: Air, now: Stamp, j: nat, ids: seq<Id>)
    requires AirOk(entries, air, now) && IsLive(air, now, j) && |ids| == Mints(air.planned[j].flight.op)
    requires !Clashes(air.truth, air.planned[j].flight.cmd) && Unborn(entries, air.recorded + [Boarded(air, j, ids)])
    ensures PlanOf(air.truth, air.planned[j].flight.cmd) == Does(air.planned[j].flight.op)
    ensures AirOk(entries, TakenOff(air, j, ids), now)
  {
    TakenOffTruth(entries, air, now, j, ids);
    SameStanding(entries, air.planned[j].flight, ids);
    TakenOffLive(entries, air, now, j, ids);
    TakenOffApart(air, now, j, ids);
    hide Stands, PlanOf, Valid, Publish, Holds, Unborn, Closed, Sane, Clashes, AllLive, ApartFrom, HeldApart, IsLive;
    RecordFlight(air.exact, entries, air.recorded, air.truth, Boarded(air, j, ids));
  }

  lemma TakenOffApart(air: Air, now: Stamp, j: nat, ids: seq<Id>)
    requires HeldApart(air, now) && IsLive(air, now, j)
    ensures HeldApart(TakenOff(air, j, ids), now)
  {
    hide Disjoint, PlanOf, Publish;
    var n := TakenOff(air, j, ids);
    forall i, k | IsLive(n, now, i) && IsLive(n, now, k) && i != k
      ensures Disjoint(n.planned[i].flight.held, n.planned[k].flight.held)
    {
      DroppedLive(air, now, j, i);
      DroppedLive(air, now, j, k);
    }
    forall i, k | IsLive(n, now, i) && 0 <= k < |n.recorded|
      ensures Disjoint(n.planned[i].flight.held, n.recorded[k].held)
    {
      DroppedLive(air, now, j, i);
      if k < |air.recorded| { assert n.recorded[k] == air.recorded[k]; }
    }
  }

  // ── Publishing ─────────────────────────────────────────────────────────────

  function Arrived(entries: PathView, air: Air, k: nat): Air
    requires k < |air.recorded|
  {
    air.(recorded := Without(air.recorded, k), exact := air.exact && Clean(entries, air.recorded, k))
  }

  lemma LandedClosed(entries: PathView, x: Flight)
    requires Closed(entries) && Stands(entries, x) && Given(x) && Sane(x) && !Clashes(entries, x.cmd)
    ensures Closed(Landed(entries, x))
  {
    if x.cmd.ChangeMode? {
      PatchLands(entries, x);
      ClosedSame(entries, Landed(entries, x));
    } else {
      ClosedPublish(entries, x.cmd, x.ids);
      var w := Landed(entries, x);
      hide Closed, Stands, PlanOf, Landed, Due, Sane;
      forall q ensures (q in w <==> q in Publish(entries, x.cmd, x.ids))
                       && (q in w ==> w[q].meta.kind == Publish(entries, x.cmd, x.ids)[q].meta.kind)
      {
        DueIsPublish(entries, x);
        LandedRelates(false, entries, x, q);
      }
      ClosedSame(Publish(entries, x.cmd, x.ids), w);
    }
  }

  lemma DueIsPublish(v: PathView, x: Flight)
    requires PlanOf(v, x.cmd) == Does(x.op) && Given(x)
    ensures Due(v, x) == Publish(v, x.cmd, x.ids)
  {
  }

  lemma LandedAlikeFor(v: PathView, x: Flight, y: Flight)
    requires Stands(v, x) && Given(x) && Stands(v, y) && Disjoint(Roots(x.cmd), Roots(y.cmd))
    ensures UpToModes(v, Landed(v, x), y.cmd)
  {
    ChmodIsChmod(v, x);
    if x.cmd.ChangeMode? {
      PatchLands(v, x);
    } else {
      LandsInside(v, x);
      hide Landed;
      ElsewhereStands(v, Landed(v, x), Roots(x.cmd), y);
      SameStands(v, Landed(v, x), y);
    }
  }

  lemma NoNewClash(v: PathView, x: Flight, y: Flight)
    requires Stands(v, x) && Given(x) && Stands(v, y) && Disjoint(Roots(x.cmd), Roots(y.cmd)) && !Clashes(v, y.cmd)
    ensures !Clashes(Landed(v, x), y.cmd)
  {
    LandedAlikeFor(v, x, y);
    if y.cmd.Cp? { RootConsultsAll(y.cmd); }
    hide Stands, Disjoint, Landed, UpToModes, PlanOf;
    if Clashes(Landed(v, x), y.cmd) { ClashesAlike(v, Landed(v, x), y.cmd); }
  }

  lemma ArrivedLive(entries: PathView, air: Air, now: Stamp, k: nat, y: Flight)
    requires AirOk(entries, air, now) && k < |air.recorded| && LiveOk(entries, air.recorded, air.truth, y)
    ensures Stands(entries, air.recorded[k]) && Given(air.recorded[k])
    ensures LiveOk(Landed(entries, air.recorded[k]), Without(air.recorded, k), air.truth, y)
  {
    var x := air.recorded[k];
    assert Stands(entries, x) && Given(x);
    if !Beaten(air.truth, y) {
      assert Disjoint(Roots(x.cmd), Roots(y.cmd));
      OthersStand(entries, x, y);
      hide Stands, PlanOf, Landed, Disjoint, AirOk, Sane;
      forall i | 0 <= i < |Without(air.recorded, k)|
        ensures Disjoint(Roots(Without(air.recorded, k)[i].cmd), Roots(y.cmd))
      {
        WithoutAt(air.recorded, k, i);
      }
      if y.cmd.MkdirSegment? {
        RootRelatedTo(entries, x, y);
      }
    }
  }

  lemma RootRelatedTo(v: PathView, x: Flight, y: Flight)
    requires Stands(v, x) && Given(x) && Stands(v, y) && Disjoint(Roots(x.cmd), Roots(y.cmd)) && y.cmd.MkdirSegment?
    ensures y.cmd.path in Landed(v, x) <==> y.cmd.path in v
  {
    LandedAlikeFor(v, x, y);
    RootRelated((a, b) => Alike(false, a, b), v, Landed(v, x), y.cmd, y.cmd.path);
  }

  /** Publishing one of several recorded flights leaves every other one standing. */
  lemma ArrivedOk(entries: PathView, air: Air, now: Stamp, k: nat)
    requires AirOk(entries, air, now) && k < |air.recorded| && InTurn(air.recorded, k)
    ensures Stands(entries, air.recorded[k]) && Given(air.recorded[k])
    ensures AirOk(Landed(entries, air.recorded[k]), Arrived(entries, air, k), now)
  {
    LandKeeps(air.exact, entries, air.recorded, k, air.truth);
    var x, n := air.recorded[k], Arrived(entries, air, k);
    var w := Landed(entries, x);
    LandedClosed(entries, x);
    ArrivedRecorded(entries, air, now, k);
    hide Holds, Stands, PlanOf, Valid, Landed, Clean, InTurn, Disjoint, Closed, Clashes, LiveOk, Sane;
    forall j | IsLive(n, now, j) ensures LiveOk(w, n.recorded, n.truth, n.planned[j].flight) {
      assert IsLive(air, now, j);
      ArrivedLive(entries, air, now, k, air.planned[j].flight);
    }
    forall j, i | IsLive(n, now, j) && 0 <= i < |n.recorded|
      ensures Disjoint(n.planned[j].flight.held, n.recorded[i].held)
    {
      assert IsLive(air, now, j);
      WithoutAt(air.recorded, k, i);
    }
    forall i, j | IsLive(n, now, i) && IsLive(n, now, j) && i != j
      ensures Disjoint(n.planned[i].flight.held, n.planned[j].flight.held)
    {
      assert IsLive(air, now, i) && IsLive(air, now, j);
    }
  }

  lemma ArrivedRecorded(entries: PathView, air: Air, now: Stamp, k: nat)
    requires AirOk(entries, air, now) && k < |air.recorded|
    ensures Stands(entries, air.recorded[k]) && Given(air.recorded[k])
    ensures AllRecorded(Landed(entries, air.recorded[k]), Without(air.recorded, k))
  {
    var xs := air.recorded;
    assert Stands(entries, xs[k]) && Given(xs[k]);
    hide PlanOf, Valid, Landed, Closed, Clashes, Sane, Stands;
    forall i | 0 <= i < |Without(xs, k)|
      ensures Sane(Without(xs, k)[i]) && !Clashes(Landed(entries, xs[k]), Without(xs, k)[i].cmd)
    {
      WithoutAt(xs, k, i);
      ApartTwo(xs, k, Place(k, i));
      assert Stands(entries, xs[Place(k, i)]);
      NoNewClash(entries, xs[k], xs[Place(k, i)]);
    }
  }

  // ── Another scope ──────────────────────────────────────────────────────────

  lemma Restamped(entries: PathView, air: Air, now: Stamp, next: Stamp)
    requires AirOk(entries, air, now) && NoneLive(air, next)
    ensures AirOk(entries, air, next)
  {
    hide Holds, Closed, AllRecorded;
  }

  /** Whatever is under way, a segment that is about to clash lies above what its operation reserved. */
  lemma ClashIsOutside(entries: PathView, air: Air, now: Stamp, j: nat)
    requires AirOk(entries, air, now) && IsLive(air, now, j) && air.planned[j].flight.cmd.MkdirSegment?
    requires Clashes(air.truth, air.planned[j].flight.cmd)
    ensures !Covers(air.planned[j].flight.held, air.planned[j].flight.cmd.path)
  {
    hide Holds, Closed;
    assert LiveOk(entries, air.recorded, air.truth, air.planned[j].flight);
  }
}
