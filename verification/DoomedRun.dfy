/** One run in which two `mkdir -p` doom their scope, step by step: with `/a` there, a script removes it, and
    two operations that reserved `/a/b` and `/a/x` then both plan to create it. */
module DoomedRun {
  import opened Options
  import opened Tables
  import opened View
  import opened Commands
  import opened CommandLaw
  import opened Isolation
  import opened InFlight
  import opened Closure
  import opened Refusals
  import opened Flights
  import opened Replay
  import opened Coalescing
  import opened Persistence
  import opened Segments
  import opened Coherence

  const NOW := Reservations.Stamp(1, true)
  const CAPS := Caps(1000, 1000000)
  const SEGMENT := MkdirSegment(["a"], 493, true)
  const REMOVE := Flight(Rm(["a"], true, [["a"]]), REMOVAL.op, None, [], {["a"]})
  const ONE := Flight(SEGMENT, CREATION, None, [], {["a", "b"]})
  const OTHER := Flight(SEGMENT, CREATION, None, [], {["a", "x"]})

  const MADE: PathView := map[[] := Entry(1, ROOT_META), ["a"] := Entry(-1, DIR)]
  const MADE_AGAIN: PathView := map[[] := Entry(1, ROOT_META), ["a"] := Entry(-2, DIR)]
  const FIRST := Buffered(CREATION, [-1], 100)
  const SECOND := Buffered(CREATION, [-2], 100)
  const REMOVED := Step(REMOVE.cmd, [], [], 100)

  const S0 := Session(0, map[], true, Quiet, -1, 0, Air([], [], map[], true), map[], [], false, [])
  const S1 := S0.(entries := WITH_A, poisoned := false, air := Air([], [], WITH_A, true))
  const S2 := S1.(phase := Scoped(false, [], 0), generation := 1, base := WITH_A)
  const S3 := S2.(air := Air([Waiting(REMOVE, NOW)], [], WITH_A, true))
  const S4 := S2.(phase := Scoped(false, [REMOVAL], 100), log := [REMOVED], air := Air([], [REMOVE], WITHOUT_A, true))
  const S5 := S4.(entries := WITHOUT_A, air := Air([], [], WITHOUT_A, true))
  const S6 := S5.(air := Air([Waiting(ONE, NOW)], [], WITHOUT_A, true))
  const S7 := S5.(air := Air([Waiting(ONE, NOW), Waiting(OTHER, NOW)], [], WITHOUT_A, true))
  const S8 := S7.(phase := Scoped(false, [REMOVAL, FIRST], 200), next := -2, log :=
      [REMOVED, Step(SEGMENT, [-1], [-1], 100)],
                  air := Air([Waiting(OTHER, NOW)], [ONE.(ids := [-1])], MADE, true))
  const S9 := S8.(phase := Scoped(false, [REMOVAL, FIRST, SECOND], 300), next := -3,
                  log := [REMOVED, Step(SEGMENT, [-1], [-1], 100), Step(SEGMENT, [-2], [-2], 100)],
                  air := Air([], [ONE.(ids := [-1]), OTHER.(ids := [-2])], MADE_AGAIN, true), doomed := true)

  const S10 := S9.(entries := MADE, air := Air([], [OTHER.(ids := [-2])], MADE_AGAIN, true))
  const S11 := S10.(entries := MADE_AGAIN, air := Air([], [], MADE_AGAIN, true))
  const S12 := S11.(phase := Recovering)
  const STORED: seq<seq<Id>> := [[], [3], [4]]

  function At(s: Session): System {
    System(Db(STORED_A, 0), CAPS, map[0 := s], map[0 := STORED_A], [])
  }

  const STATES: seq<System> :=
    [At(S0), At(S1), At(S2), At(S3), At(S4), At(S5), At(S6), At(S7), At(S8), At(S9),
     At(S10), At(S11), At(S12)]
  const EVENTS: seq<Event> :=
    [Install(0, 0, WITH_A), Coherence.Begin(0), Plan(0, REMOVE.cmd, REMOVE.held), Record(0, 0, 100), Land(0, 0),
     Plan(0, MkdirSegment(["a"], 493, false), ONE.held), Plan(0, MkdirSegment(["a"], 493, false), OTHER.held),
     Record(0, 0, 100), Record(0, 0, 100), Land(0, 0), Land(0, 0), End(0, STORED, Fate(true, 100, Acknowledged))]

  // ── The start ──────────────────────────────────────────────────────────────

  lemma StoredConsistent()
    ensures Consistent(STORED_A)
  {
    assert Refs(STORED_A, 2) == {(1, "a")} && Refs(STORED_A, 1) == {};
  }

  lemma StoredLookup(p: Path)
    ensures Lookup(STORED_A, p) == if p == [] then Some(1) else if p == ["a"] then Some(2) else None
  {
    if p != [] {
      StoredLookup(ParentOf(p));
      StepDown(STORED_A, p);
      assert p == ParentOf(p) + [NameOf(p)];
    }
  }

  lemma StoredMirrored()
    ensures Started(WITH_A, STORED_A)
  {
    StoredConsistent();
    forall p: Path
      ensures (p in WITH_A <==> Lookup(STORED_A, p).Some?)
              && (p in WITH_A ==>
                    && WITH_A[p].id == Lookup(STORED_A, p).value && WITH_A[p].id in STORED_A.inodes
                    && WITH_A[p].meta == STORED_A.inodes[WITH_A[p].id].meta)
    {
      StoredLookup(p);
    }
  }

  lemma Loads()
    ensures Init(At(S0)) && Next(At(S0), EVENTS[0], At(S1)) && Next(At(S1), EVENTS[1], At(S2))
  {
    StoredMirrored();
    hide WellFormed, Mirrors, Lookup;
    assert Sound(STORED_A);
  }

  lemma Replaced(s: Session, t: Session)
    ensures With(At(s), 0, t) == At(t)
  {
    assert At(s).sessions[0 := t] == map[0 := t];
  }

  // ── The removal ────────────────────────────────────────────────────────────

  lemma RemovalPlans()
    ensures PlanOf(WITH_A, REMOVE.cmd) == Does(REMOVAL.op) && Valid(WITH_A, REMOVE.cmd)
    ensures Planning(WITH_A, REMOVE.cmd, REMOVE.held) == REMOVE
  {
    assert ParentOf(["a"]) == [] && NameOf(["a"]) == "a";
    assert RmPlan(WITH_A, ["a"], [["a"]]) == [RmStep(2, None)];
  }

  lemma RemovalPublished()
    ensures PlanOf(WITH_A, REMOVE.cmd) == Does(REMOVAL.op) && Publish(WITH_A, REMOVE.cmd, []) == WITHOUT_A
    ensures Landed(WITH_A, REMOVE) == WITHOUT_A
  {
    RemovalPlans();
    hide PlanOf, RmPlan;
    assert Changes(WITH_A, REMOVE.cmd, []) == [Delete(["a"])];
    OneChange(WITH_A, Delete(["a"]));
    assert WITH_A - {["a"]} == WITHOUT_A;
  }

  lemma RemovalMayPlan()
    ensures MayPlan(WITH_A, S2.air, NOW, REMOVE.cmd, REMOVE.held)
    ensures WithPlan(WITH_A, S2.air, NOW, REMOVE.cmd, REMOVE.held) == S3.air
  {
    RemovalPlans();
    hide PlanOf, Planning, Valid;
  }

  lemma PlansRemoval()
    ensures Next(At(S2), EVENTS[2], At(S3))
  {
    RemovalMayPlan();
    Replaced(S2, S3);
    hide MayPlan, WithPlan;
  }

  lemma FirstJournal()
    ensures MintIds(-1, 0) == [] && Keep([], REMOVAL) == [REMOVAL] && SumBytes([REMOVAL]) == 100
  {
  }

  lemma RecordsRemoval()
    ensures Next(At(S3), EVENTS[3], At(S4))
  {
    RemovalPublished();
    FirstJournal();
    Replaced(S3, S4);
    hide PlanOf, Publish, Landed, MintIds, Keep, SumBytes;
    assert !Clashes(WITH_A, REMOVE.cmd);
    assert TakenOff(S3.air, 0, []) == S4.air;
    hide TakenOff, Clashes;
    assert Recorded(S3, CAPS, 0, 100) == S4;
  }

  lemma LandsRemoval()
    ensures Next(At(S4), EVENTS[4], At(S5))
  {
    RemovalPublished();
    hide PlanOf, Landed, Publish;
    Replaced(S4, S5);
    assert Without([REMOVE], 0) == [];
    assert Landing(S4, 0) == S5;
  }

  // ── The two segments ───────────────────────────────────────────────────────

  lemma SegmentPlans()
    ensures PlanOf(WITHOUT_A, MkdirSegment(["a"], 493, false)) == Does(CREATION)
    ensures PlanOf(WITHOUT_A, SEGMENT) == Does(CREATION) && PlanOf(MADE, SEGMENT) == Does(CREATION)
    ensures Planning(WITHOUT_A, MkdirSegment(["a"], 493, false), ONE.held) == ONE
    ensures Planning(WITHOUT_A, MkdirSegment(["a"], 493, false), OTHER.held) == OTHER
  {
    BothCreate();
    assert ParentOf(["a"]) == [] && NameOf(["a"]) == "a";
  }

  lemma ReservedApart()
    ensures Disjoint(ONE.held, OTHER.held) && Normal(["a"])
    ensures HeldFor(MkdirSegment(["a"], 493, false), ONE.held) && HeldFor(MkdirSegment(["a"], 493, false), OTHER.held)
  {
    assert ["a", "b"][1] == "b" && ["a", "x"][1] == "x";
    assert ["a"] <= ["a", "b"] && ["a"] <= ["a", "x"];
  }

  lemma OneMayPlan()
    ensures MayPlan(WITHOUT_A, S5.air, NOW, MkdirSegment(["a"], 493, false), ONE.held)
    ensures WithPlan(WITHOUT_A, S5.air, NOW, MkdirSegment(["a"], 493, false), ONE.held) == S6.air
  {
    SegmentPlans();
    ReservedApart();
    hide PlanOf, Planning, HeldFor, Disjoint;
  }

  lemma OtherMayPlan()
    ensures MayPlan(WITHOUT_A, S6.air, NOW, MkdirSegment(["a"], 493, false), OTHER.held)
    ensures WithPlan(WITHOUT_A, S6.air, NOW, MkdirSegment(["a"], 493, false), OTHER.held) == S7.air
  {
    SegmentPlans();
    ReservedApart();
    hide PlanOf, Planning, HeldFor, Disjoint;
  }

  lemma PlansSegments()
    ensures Next(At(S5), EVENTS[5], At(S6)) && Next(At(S6), EVENTS[6], At(S7))
  {
    OneMayPlan();
    OtherMayPlan();
    Replaced(S5, S6);
    Replaced(S6, S7);
    hide MayPlan, WithPlan;
  }

  lemma SegmentsPublished()
    ensures PlanOf(WITHOUT_A, SEGMENT) == Does(CREATION) && Publish(WITHOUT_A, SEGMENT, [-1]) == MADE
    ensures PlanOf(MADE, SEGMENT) == Does(CREATION) && Publish(MADE, SEGMENT, [-2]) == MADE_AGAIN
  {
    SegmentPlans();
    OneChange(WITHOUT_A, Put(["a"], Entry(-1, DIR)));
    OneChange(MADE, Put(["a"], Entry(-2, DIR)));
  }

  lemma Journals()
    ensures MintIds(-1, 1) == [-1] && MintIds(-2, 1) == [-2]
    ensures Keep([REMOVAL], FIRST) == [REMOVAL, FIRST] && Keep([REMOVAL, FIRST], SECOND) == [REMOVAL, FIRST, SECOND]
    ensures SumBytes([REMOVAL, FIRST]) == 200 && SumBytes([REMOVAL, FIRST, SECOND]) == 300
  {
    assert [REMOVAL, FIRST, SECOND][..2] == [REMOVAL, FIRST] && [REMOVAL, FIRST][..1] == [REMOVAL];
    assert SumBytes([REMOVAL]) == 100;
    assert SumBytes([REMOVAL, FIRST]) == 200;
  }

  lemma OneRecorded()
    ensures Recorded(S7, CAPS, 0, 100) == S8
  {
    SegmentsPublished();
    Journals();
    hide PlanOf, Publish, MintIds, Keep, SumBytes;
    assert !Clashes(WITHOUT_A, SEGMENT);
    assert TakenOff(S7.air, 0, [-1]) == S8.air;
    hide TakenOff, Clashes;
    assert Recorded(S7, CAPS, 0, 100) == S8;
  }

  lemma RecordsOne()
    ensures Next(At(S7), EVENTS[7], At(S8))
  {
    OneRecorded();
    Replaced(S7, S8);
    hide Recorded;
  }

  lemma OtherRecorded()
    ensures Recorded(S8, CAPS, 0, 100) == S9
  {
    SegmentsPublished();
    Journals();
    hide PlanOf, Publish, MintIds, Keep, SumBytes;
    assert Clashes(MADE, SEGMENT);
    assert TakenOff(S8.air, 0, [-2]) == S9.air;
    hide TakenOff, Clashes;
    assert Recorded(S8, CAPS, 0, 100) == S9;
  }

  lemma RecordsOther()
    ensures Next(At(S8), EVENTS[8], At(S9))
  {
    OtherRecorded();
    Replaced(S8, S9);
    hide Recorded;
  }

  // ── One command is enough ──────────────────────────────────────────────────

  const MAKE_B := Step(Mkdir(["b"], 493), [-1], [3], 100)
  const LINK_OVER_A := Step(MakeSymlink("/x", ["a"]), [-2], [4], 100)
  const WITH_B: PathView := WITH_A[["b"] := Entry(-1, DIR)]

  lemma MakesB()
    ensures Records(WITH_A, MAKE_B) && ViewOf(WITH_A, [MAKE_B]) == WITH_B && NoneClashes(WITH_A, [MAKE_B])
  {
    assert ["b"][0] == "b" && ["a"][0] == "a" && ParentOf(["b"]) == [] && ["b"] !in WITH_A;
    OneChange(WITH_A, Put(["b"], Entry(-1, DIR)));
    assert [MAKE_B][..0] == [] && ViewOf(WITH_A, []) == WITH_A;
  }

  lemma LinksOverA()
    ensures Records(WITH_B, LINK_OVER_A) && Clashes(WITH_B, LINK_OVER_A.cmd)
  {
    assert ["b"][0] == "b" && ["a"][0] == "a" && ParentOf(["a"]) == [] && ["a"] in WITH_B;
  }

  lemma IdsAppend(log: seq<Step>, s: Step)
    ensures Minteds(log + [s]) == Minteds(log) + s.minted && Reals(log + [s]) == Reals(log) + s.stored
    ensures Minteds([]) == [] && Reals([]) == []
  {
    assert (log + [s])[..|log|] == log;
  }

  lemma BothAllocated()
    ensures Allocated(STORED_A, [MAKE_B] + [LINK_OVER_A])
  {
    IdsAppend([], MAKE_B);
    IdsAppend([MAKE_B], LINK_OVER_A);
    assert [] + [MAKE_B] == [MAKE_B];
    hide Minteds, Reals;
    assert Minteds([MAKE_B] + [LINK_OVER_A]) == [-1, -2] && Reals([MAKE_B] + [LINK_OVER_A]) == [3, 4];
  }

  /** `mkdir /b` and `symlink /x /a` in one scope, nothing else under way: both pass their checks, the first alone
      would be stored, and together nothing is. */
  lemma LinkLosesTheScope()
    ensures Started(WITH_A, STORED_A) && Legal(WITH_A, [MAKE_B] + [LINK_OVER_A])
    ensures Eager(WITH_A, Tx(STORED_A, 0, 0), [MAKE_B]).Some?
    ensures Eager(WITH_A, Tx(STORED_A, 0, 0), [MAKE_B] + [LINK_OVER_A]).None?
  {
    StoredMirrored();
    MakesB();
    LinksOverA();
    BothAllocated();
    hide Started, Records, ViewOf, Clashes, NoneClashes, Allocated, Eager;
    var log := [MAKE_B] + [LINK_OVER_A];
    assert log[..0] == [] && log[..1] == [MAKE_B] && ViewOf(WITH_A, []) == WITH_A by { StartsFrom(WITH_A); }
    assert Legal(WITH_A, log);
    ClashLosesScope(WITH_A, Tx(STORED_A, 0, 0), [MAKE_B], LINK_OVER_A);
  }

  lemma StartsFrom(v: PathView)
    ensures ViewOf(v, []) == v
  {
  }

  // ── The run ────────────────────────────────────────────────────────────────

  lemma LandsSegments()
    ensures Next(At(S9), EVENTS[9], At(S10)) && Next(At(S10), EVENTS[10], At(S11))
  {
    Replaced(S9, S10);
    Replaced(S10, S11);
    var xs := S9.air.recorded;
    assert Without(xs, 0) == [OTHER.(ids := [-2])] && Without(S10.air.recorded, 0) == [];
    assert Arrived(S9.entries, S9.air, 0) == S10.air;
    assert Arrived(S10.entries, S10.air, 0) == S11.air;
    hide Arrived, PlanOf;
  }

  lemma LogAllocated()
    ensures Assigns(STORED_A, S11.log, STORED)
  {
    var log := WithIds(S11.log, STORED);
    var made, again := Step(SEGMENT, [-1], [3], 100), Step(SEGMENT, [-2], [4], 100);
    assert log == [REMOVED] + [made] + [again];
    IdsAppend([], REMOVED);
    IdsAppend([REMOVED], made);
    IdsAppend([REMOVED] + [made], again);
    assert [] + [REMOVED] == [REMOVED];
    hide Minteds, Reals;
    assert Minteds(log) == [-1, -2] && Reals(log) == [3, 4];
  }

  lemma FlushFails()
    requires Inv(At(S11))
    ensures Next(At(S11), EVENTS[11], At(S12))
  {
    LogAllocated();
    hide Assigns, Inv, NextEnd;
    Replaced(S11, S12);
    DeadScopeEnds(At(S11), 0, STORED, Fate(true, 100, Acknowledged));
  }

  lemma UpToTheEnd()
    ensures Behaviour(STATES[..12], EVENTS[..11])
  {
    Loads();
    PlansRemoval();
    RecordsRemoval();
    LandsRemoval();
    PlansSegments();
    RecordsOne();
    RecordsOther();
    LandsSegments();
    hide Next, Init;
    assert forall n :: 0 <= n < 11 ==> Next(STATES[n], EVENTS[n], STATES[n + 1]);
  }

  lemma Reserved()
    ensures ONE.held == {RootAt(S2.entries, ["a", "b", "c"])} && OTHER.held == {RootAt(S2.entries, ["a", "x", "y"])}
    ensures Disjoint(ONE.held, OTHER.held)
    ensures NextSegment(S5.entries, ["a", "b", "c"], 0) == Some(SEGMENT.path)
    ensures NextSegment(S5.entries, ["a", "x", "y"], 0) == Some(SEGMENT.path)
  {
    RootsApart();
    BothCreate();
    ReservedApart();
    hide RootAt, NextSegment, PlanOf;
  }

  lemma SoundBeforeTheEnd()
    ensures Inv(At(S11))
  {
    UpToTheEnd();
    RunInv(STATES[..12], EVENTS[..11], 11);
    hide Inv, Behaviour;
    assert STATES[..12][11] == At(S11);
  }

  lemma ToTheEnd()
    ensures Behaviour(STATES, EVENTS)
  {
    UpToTheEnd();
    SoundBeforeTheEnd();
    FlushFails();
    hide Next, Init, Inv;
    forall n | 0 <= n < 12 ensures Next(STATES[n], EVENTS[n], STATES[n + 1]) {
      if n < 11 {
        assert STATES[..12][n] == STATES[n] && STATES[..12][n + 1] == STATES[n + 1] && EVENTS[..11][n] == EVENTS[n];
      }
    }
  }

  /** The run. What the two operations reserved is what `mkdir -p /a/b/c` and `mkdir -p /a/x/y` reserve while `/a`
      is there, and does not overlap; what they plan is what both create once it is gone. The scope they
      record in fails although its lease lasts and nobody else commits: the removal is not stored
      either, and the session waits for a reload. */
  lemma TwoMkdirsDoomTheScope()
    ensures Behaviour(STATES, EVENTS) && Dead(STATES[9].sessions[0]) && !Dead(STATES[8].sessions[0])
    ensures ONE.held == {RootAt(S2.entries, ["a", "b", "c"])} && OTHER.held == {RootAt(S2.entries, ["a", "x", "y"])}
    ensures Disjoint(ONE.held, OTHER.held)
    ensures NextSegment(S5.entries, ["a", "b", "c"], 0) == Some(SEGMENT.path)
    ensures NextSegment(S5.entries, ["a", "x", "y"], 0) == Some(SEGMENT.path)
    ensures STATES[12].db == STATES[0].db && STATES[12].sessions[0].phase.Recovering?
  {
    ToTheEnd();
    Reserved();
    hide Behaviour, RootAt, NextSegment, Disjoint;
  }
}
