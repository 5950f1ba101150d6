/** One run of the system with two operations under way at once, step by step: a session loads, begins a
    scope, plans a hard link and a mode change of the same inode, records and publishes the mode change,
    then the link. */
module OverlapRun {
  import opened Options
  import opened Tables
  import opened View
  import opened Commands
  import opened CommandLaw
  import opened InFlight
  import opened Flights
  import opened StaleModes
  import opened Replay
  import opened Coalescing
  import opened Persistence
  import opened Coherence

  const NOW := Reservations.Stamp(1, true)
  const LINKED: PathView := TWO_NAMES_LATER[["c"] := CHANGED]

  const S0 := Session(0, map[], true, Quiet, -1, 0, Air([], [], map[], true), map[], [], false, [])
  const S1 := S0.(entries := TWO_NAMES, poisoned := false, air := Air([], [], TWO_NAMES, true))
  const S2 := S1.(phase := Scoped(false, [], 0), generation := 1, base := TWO_NAMES)
  const S3 := S2.(air := Air([Waiting(LINK, NOW)], [], TWO_NAMES, true))
  const S4 := S2.(air := Air([Waiting(LINK, NOW), Waiting(CHMOD, NOW)], [], TWO_NAMES, true))
  const FIRST := Buffered(CHMOD.op, [], 100)
  const SECOND := Buffered(LINK.op, [], 100)
  const S5 := S2.(phase := Scoped(false, [FIRST], 100), log := [Step(CHMOD.cmd, [], [], 100)],
                  air := Air([Waiting(LINK, NOW)], [CHMOD], TWO_NAMES_LATER, true))
  const S6 := S5.(entries := TWO_NAMES_LATER, air := Air([Waiting(LINK, NOW)], [], TWO_NAMES_LATER, true))
  const S7 := S6.(phase := Scoped(false, [FIRST, SECOND], 200),
                  log := [Step(CHMOD.cmd, [], [], 100), Step(LINK.cmd, [], [], 100)], air :=
                      Air([], [LINK], LINKED, true))
  const S8 := S7.(entries := TWO_NAMES_LATER[["c"] := SHARED], air := Air([], [], LINKED, false))

  function At(s: Session): System {
    System(Db(TABLES, 0), Caps(1000, 1000000), map[0 := s], map[0 := TABLES], [])
  }

  const STATES: seq<System> := [At(S0), At(S1), At(S2), At(S3), At(S4), At(S5), At(S6), At(S7), At(S8)]
  const EVENTS: seq<Event> :=
    [Install(0, 0, TWO_NAMES), Coherence.Begin(0), Plan(0, LINK.cmd, LINK.held), Plan(0, CHMOD.cmd, CHMOD.held),
     Record(0, 1, 100), Land(0, 0), Record(0, 0, 100), Land(0, 0)]

  // ── The start ──────────────────────────────────────────────────────────────

  lemma NamesOfTwo()
    ensures Refs(TABLES, 2) == {(1, "a"), (1, "b")} && |Refs(TABLES, 2)| == 2 && Refs(TABLES, 1) == {}
  {
    assert (1, "a") != (1, "b");
    assert Refs(TABLES, 2) == {(1, "a"), (1, "b")};
  }

  lemma TablesConsistent()
    ensures Consistent(TABLES)
  {
    NamesOfTwo();
  }

  lemma TablesLookup(p: Path)
    ensures Lookup(TABLES, p) == if p == [] then Some(1) else if p == ["a"] || p == ["b"] then Some(2) else None
  {
    if p != [] {
      TablesLookup(ParentOf(p));
      StepDown(TABLES, p);
      assert p == ParentOf(p) + [NameOf(p)];
    }
  }

  lemma TablesMirrored()
    ensures Started(TWO_NAMES, TABLES)
  {
    TablesConsistent();
    forall p: Path
      ensures (p in TWO_NAMES <==> Lookup(TABLES, p).Some?)
              && (p in TWO_NAMES ==>
                    && TWO_NAMES[p].id == Lookup(TABLES, p).value && TWO_NAMES[p].id in TABLES.inodes
                    && TWO_NAMES[p].meta == TABLES.inodes[TWO_NAMES[p].id].meta)
    {
      TablesLookup(p);
    }
  }

  lemma Loads()
    ensures Init(At(S0)) && Next(At(S0), EVENTS[0], At(S1)) && Next(At(S1), EVENTS[1], At(S2))
  {
    TablesMirrored();
    hide WellFormed, Mirrors, Lookup;
    assert Sound(TABLES);
  }

  // ── The steps ──────────────────────────────────────────────────────────────

  lemma Replaced(s: Session, t: Session)
    ensures With(At(s), 0, t) == At(t)
  {
    assert At(s).sessions[0 := t] == map[0 := t];
  }

  lemma OneLetterNames()
    ensures ParentOf(["a"]) == ParentOf(["b"]) == ParentOf(["c"]) == [] && ["a"] != ["b"] && ["a"] != ["c"]
            && ["b"] != ["c"]
    ensures Normal(["a"]) && Normal(["b"]) && Normal(["c"])
  {
    assert ["a"][0] == "a" && ["b"][0] == "b" && ["c"][0] == "c";
  }

  lemma LinkMayPlan()
    ensures MayPlan(TWO_NAMES, S2.air, NOW, LINK.cmd, LINK.held)
    ensures WithPlan(TWO_NAMES, S2.air, NOW, LINK.cmd, LINK.held) == S3.air
  {
    LinkPlans();
    OneLetterNames();
    hide PlanOf, Planning;
  }

  lemma ChmodMayPlan()
    ensures MayPlan(TWO_NAMES, S3.air, NOW, CHMOD.cmd, CHMOD.held)
    ensures WithPlan(TWO_NAMES, S3.air, NOW, CHMOD.cmd, CHMOD.held) == S4.air
  {
    LinkPlans();
    OneLetterNames();
    hide PlanOf, Planning;
  }

  lemma PlansBoth()
    ensures Next(At(S2), EVENTS[2], At(S3)) && Next(At(S3), EVENTS[3], At(S4))
  {
    LinkMayPlan();
    ChmodMayPlan();
    Replaced(S2, S3);
    Replaced(S3, S4);
    hide MayPlan, WithPlan;
  }

  lemma TruthOfBoth()
    ensures PlanOf(TWO_NAMES, CHMOD.cmd) == Does(CHMOD.op) && Publish(TWO_NAMES, CHMOD.cmd, []) == TWO_NAMES_LATER
    ensures PlanOf(TWO_NAMES_LATER, LINK.cmd) == Does(LINK.op) && Publish(TWO_NAMES_LATER, LINK.cmd, []) == LINKED
  {
    LinkPlans();
    ChmodLands();
    OneLetterNames();
    OneChange(TWO_NAMES, PatchMode(2, 256));
    OneChange(TWO_NAMES_LATER, Put(["c"], CHANGED));
  }

  lemma RecordsChmod()
    ensures Next(At(S4), EVENTS[4], At(S5))
  {
    TruthOfBoth();
    hide PlanOf, Publish;
    Replaced(S4, S5);
    assert MintIds(-1, 0) == [];
    assert Keep([], FIRST) == [FIRST];
    assert SumBytes([FIRST]) == 100;
    assert Recorded(S4, Caps(1000, 1000000), 1, 100) == S5;
  }

  lemma RecordsLink()
    ensures Next(At(S6), EVENTS[6], At(S7))
  {
    TruthOfBoth();
    hide PlanOf, Publish;
    Replaced(S6, S7);
    assert MintIds(-1, 0) == [];
    assert Keep([FIRST], SECOND) == [FIRST, SECOND];
    assert [FIRST, SECOND][..1] == [FIRST];
    assert SumBytes([FIRST]) == 100;
    assert SumBytes([FIRST, SECOND]) == 200;
    assert Recorded(S6, Caps(1000, 1000000), 0, 100) == S7;
  }

  lemma LandsChmod()
    ensures Next(At(S5), EVENTS[5], At(S6)) && Clean(S5.entries, S5.air.recorded, 0)
  {
    ChmodLands();
    hide PlanOf, Landed;
    Replaced(S5, S6);
    assert Without([CHMOD], 0) == [];
    assert Landing(S5, 0) == S6;
  }

  lemma LandsLink()
    ensures Next(At(S7), EVENTS[7], At(S8)) && !Clean(S7.entries, S7.air.recorded, 0)
  {
    LinkPlans();
    OneChange(TWO_NAMES_LATER, Put(["c"], SHARED));
    assert Landed(TWO_NAMES_LATER, LINK) == TWO_NAMES_LATER[["c"] := SHARED];
    hide PlanOf, Landed;
    Replaced(S7, S8);
    assert Without([LINK], 0) == [];
    assert Landing(S7, 0) == S8;
  }

  /** A run with two operations under way at once, whose last publication is the first that is not clean. */
  lemma LinkAndChmodOverlap()
    ensures Behaviour(STATES, EVENTS) && |STATES[4].sessions[0].air.planned| == 2
    ensures CleanSince(STATES, EVENTS, 7, 0) && EVENTS[7] == Land(0, 0)
    ensures !Clean(STATES[7].sessions[0].entries, STATES[7].sessions[0].air.recorded, 0)
    ensures var t := STATES[8].sessions[0]; t.air.recorded == [] && !Dead(t) && t.entries != t.air.truth
  {
    Loads();
    PlansBoth();
    RecordsChmod();
    LandsChmod();
    RecordsLink();
    LandsLink();
    hide Next, Init, Clean;
    assert forall n :: 0 <= n < 8 ==> Next(STATES[n], EVENTS[n], STATES[n + 1]);
    assert CleanSince(STATES, EVENTS, 1, 0);
    assert CleanSince(STATES, EVENTS, 5, 0);
    assert CleanSince(STATES, EVENTS, 6, 0);
    UncleanShows(STATES, EVENTS, 7, 0, 0);
  }
}
