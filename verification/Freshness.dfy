/** Freshness: callers queue up, a loop answers them a cohort at a time from one snapshot, and a view is
    kept only if the snapshot shows the very epoch it is cached at. `tree` is the history of the
    database: the tree of every epoch. */
module Freshness {
  import opened Options
  import opened View

  type Ticket = nat
  type History = nat -> PathView

  /** `asked` is the database epoch when the caller asked, `after` the number of loads begun by then. */
  datatype Waiter = Waiter(ticket: Ticket, force: bool, asked: nat, after: nat)
  datatype Verdict = Resolved(reloaded: bool, load: nat) | Rejected(load: nat)

  /** A load in flight: its cohort, and once its snapshot was taken the epoch it saw and whether the
      cached view was kept. */
  datatype Load = Load(cohort: seq<Waiter>, force: bool, number: nat, seen: Option<nat>, keep: bool)

  datatype Cached = Cached(epoch: nat, entries: PathView, poisoned: bool)

  datatype State = State(db: nat, view: Cached, queue: seq<Waiter>, running: bool, load: Option<Load>, loads: nat,
                         arrivals: nat, answers: map<Ticket, Verdict>)

  datatype Event = Commits | Publishes | Poisons | Asks(force: bool) | Begins | Sees | Ends(ok: bool)

  predicate AnyForced(ws: seq<Waiter>) {
    exists i :: 0 <= i < |ws| && ws[i].force
  }

  predicate Enabled(s: State, e: Event) {
    match e
    case Publishes => s.view.epoch == s.db && Usable(s.view)
    case Begins => s.running && s.load.None? && s.queue != []
    case Sees => s.load.Some? && s.load.value.seen.None?
    case Ends(ok) => s.load.Some? && (ok ==> s.load.value.seen.Some?)
    case _ => true
  }

  function Answered(answers: map<Ticket, Verdict>, ws: seq<Waiter>, v: Verdict): map<Ticket, Verdict> {
    if ws == [] then answers else Answered(answers, ws[..|ws| - 1], v)[ws[|ws| - 1].ticket := v]
  }

  /** The view is the one of this epoch already. */
  predicate Keeps(view: Cached, force: bool, seen: nat) {
    !force && Usable(view) && view.epoch == seen
  }

  /** A snapshot without a single row means the sandbox is gone: that load fails too. */
  predicate Works(load: Load, tree: History, ok: bool)
    requires ok ==> load.seen.Some?
  {
    ok && (load.keep || tree(load.seen.value) != map[])
  }

  /** A view that can be used: loaded and not poisoned. */
  predicate Usable(view: Cached) {
    !view.poisoned && view.entries != map[]
  }

  function VerdictOf(load: Load, works: bool): Verdict {
    if works then Resolved(!load.keep, load.number) else Rejected(load.number)
  }

  function Installed(view: Cached, load: Load, tree: History): Cached
    requires load.seen.Some?
  {
    if load.keep then view else Cached(load.seen.value, tree(load.seen.value), false)
  }

  function Next(s: State, tree: History, e: Event): State
    requires Enabled(s, e)
  {
    match e
    case Commits => s.(db := s.db + 1)
    case Publishes => s.(db := s.db + 1, view := Cached(s.db + 1, tree(s.db + 1), false))
    case Poisons => s.(view := s.view.(poisoned := true))
    case Asks(force) =>
      s.(queue := s.queue + [Waiter(s.arrivals, force, s.db, s.loads)], arrivals := s.arrivals + 1, running := true)
    case Begins =>
      s.(queue := [], load := Some(Load(s.queue, AnyForced(s.queue), s.loads, None, false)), loads := s.loads + 1)
    case Sees =>
      s.(load := Some(s.load.value.(seen := Some(s.db), keep := Keeps(s.view, s.load.value.force, s.db))))
    case Ends(ok) =>
      var l := s.load.value;
      var works := Works(l, tree, ok);
      s.(view := if works then Installed(s.view, l, tree) else s.view, load := None,
         answers := Answered(s.answers, l.cohort, VerdictOf(l, works)), running := s.queue != [])
  }

  // ── What an answer says ────────────────────────────────────────────────────

  /** Resolved exactly when the load ended well and kept the view or saw a tree with rows, and then told whether the
      view was replaced; rejected otherwise; with the number of the load either way. */
  ghost predicate Tells(v: Verdict, load: Load, tree: History, ok: bool)
    requires ok ==> load.seen.Some?
  {
    && (v.Resolved? <==> ok && (load.keep || tree(load.seen.value) != map[]))
    && (v.Resolved? ==> (v.reloaded <==> !load.keep))
    && v.load == load.number
  }

  lemma VerdictTells(load: Load, tree: History, ok: bool)
    requires ok ==> load.seen.Some?
    ensures Tells(VerdictOf(load, Works(load, tree, ok)), load, tree, ok)
  {
  }

  lemma AllAnswered(answers: map<Ticket, Verdict>, ws: seq<Waiter>, v: Verdict)
    ensures forall i :: 0 <= i < |ws| ==>
            ws[i].ticket in Answered(answers, ws, v) && Answered(answers, ws, v)[ws[i].ticket] == v
    ensures forall t :: t in Answered(answers, ws, v) && (forall i :: 0 <= i < |ws| ==> ws[i].ticket != t) ==>
              t in answers && Answered(answers, ws, v)[t] == answers[t]
  {
    forall i | 0 <= i < |ws|
      ensures ws[i].ticket in Answered(answers, ws, v) && Answered(answers, ws, v)[ws[i].ticket] == v
    {
      AnsweredAt(answers, ws, v, ws[i].ticket);
    }
    forall t | t in Answered(answers, ws, v) && (forall i :: 0 <= i < |ws| ==> ws[i].ticket != t)
      ensures t in answers && Answered(answers, ws, v)[t] == answers[t]
    {
      AnsweredAt(answers, ws, v, t);
    }
  }

  class FreshnessQueue {
    var queue: seq<Waiter>
    var running: bool
    var answers: map<Ticket, Verdict>
    var epoch: nat
    var entries: PathView
    var poisoned: bool

    constructor ()
      ensures queue == [] && !running && answers == map[] && Cached(epoch, entries, poisoned) == Cached(0, map[], false)
    {
      queue, running, answers, epoch, entries, poisoned := [], false, map[], 0, map[], false;
    }

    /** Joins the queue; the first one in starts the loop. */
    method Ask(w: Waiter) returns (starts: bool)
      modifies this`queue, this`running
      ensures queue == old(queue) + [w] && running && starts == !old(running)
    {
      queue := queue + [w];
      starts := !running;
      running := true;
    }

    /** Takes everyone who waits. */
    method Begin() returns (cohort: seq<Waiter>, force: bool)
      modifies this`queue
      ensures cohort == old(queue) && queue == [] && force == AnyForced(old(queue))
    {
      cohort := queue;
      queue := [];
      force := false;
      for i := 0 to |cohort|
        invariant force <==> exists j :: 0 <= j < i && cohort[j].force
      {
        force := force || cohort[i].force;
      }
    }

    method Check(force: bool, seen: nat) returns (keep: bool)
      ensures keep == Keeps(Cached(epoch, entries, poisoned), force, seen)
      ensures keep <==> !force && !poisoned && entries != map[] && epoch == seen
    {
      keep := !force && !poisoned && entries != map[] && seen == epoch;
    }

    /** Installs epoch and entries together, and answers the whole cohort. */
    method Finish(load: Load, tree: History, ok: bool)
      requires ok ==> load.seen.Some?
      modifies this
      ensures Cached(epoch, entries, poisoned) == if Works(load, tree, ok)
              then Installed(old(Cached(epoch, entries, poisoned)), load, tree)
                                                  else old(Cached(epoch, entries, poisoned))
      ensures answers == Answered(old(answers), load.cohort, VerdictOf(load, Works(load, tree, ok)))
      ensures queue == old(queue) && running == (queue != [])
      ensures forall i :: 0 <= i < |load.cohort| ==>
                load.cohort[i].ticket in answers && Tells(answers[load.cohort[i].ticket], load, tree, ok)
      ensures forall t :: t in answers && (forall i :: 0 <= i < |load.cohort| ==> load.cohort[i].ticket != t) ==>
                t in old(answers) && answers[t] == old(answers)[t]
      ensures ok && !load.keep && tree(load.seen.value) != map[] ==>
                epoch == load.seen.value && entries == tree(load.seen.value) && !poisoned
      ensures !ok || load.keep || tree(load.seen.value) == map[] ==>
                epoch == old(epoch) && entries == old(entries) && poisoned == old(poisoned)
    {
      var works := ok;
      if ok && !load.keep {
        var rows := tree(load.seen.value);
        if rows == map[] { works := false; } else { epoch, entries, poisoned := load.seen.value, rows, false; }
      }
      var verdict := VerdictOf(load, works);
      ghost var view := Cached(epoch, entries, poisoned);
      for i := 0 to |load.cohort|
        invariant queue == old(queue) && Cached(epoch, entries, poisoned) == view
        invariant answers == Answered(old(answers), load.cohort[..i], verdict)
      {
        assert load.cohort[..i + 1][..i] == load.cohort[..i];
        answers := answers[load.cohort[i].ticket := verdict];
      }
      assert load.cohort[..|load.cohort|] == load.cohort;
      running := queue != [];
      VerdictTells(load, tree, ok);
      AllAnswered(old(answers), load.cohort, verdict);
    }
  }

  // ── What every run keeps ───────────────────────────────────────────────────

  function Cohort(s: State): seq<Waiter> {
    if s.load.Some? then s.load.value.cohort else []
  }

  /** Everyone who has asked and not been answered, oldest first. */
  function Waiting(s: State): seq<Waiter> {
    Cohort(s) + s.queue
  }

  ghost predicate Distinct(ws: seq<Waiter>) {
    forall i, j :: 0 <= i < j < |ws| ==> ws[i].ticket != ws[j].ticket
  }

  ghost predicate Open(ws: seq<Waiter>, answers: map<Ticket, Verdict>, arrivals: nat) {
    forall i :: 0 <= i < |ws| ==> ws[i].ticket < arrivals && ws[i].ticket !in answers
  }

  ghost predicate Old(answers: map<Ticket, Verdict>, arrivals: nat) {
    forall t :: t in answers ==> t < arrivals
  }

  /** Every ticket handed out stands in line once or is answered, and never both. */
  ghost predicate Tickets(s: State) {
    && Open(Waiting(s), s.answers, s.arrivals) && Distinct(Waiting(s)) && Old(s.answers, s.arrivals)
    && |Waiting(s)| + |s.answers| == s.arrivals
  }

  /** Nobody waits for a loop that does not run. */
  ghost predicate Awake(s: State) {
    (Waiting(s) != [] ==> s.running) && (s.running ==> s.load.Some? || s.queue != [])
  }

  ghost predicate Times(s: State) {
    && (forall i :: 0 <= i < |s.queue| ==> s.queue[i].asked <= s.db && s.queue[i].after <= s.loads)
    && (s.load.Some? ==>
          && s.load.value.number < s.loads && s.load.value.force == AnyForced(s.load.value.cohort)
          && (forall i :: 0 <= i < |s.load.value.cohort| ==>
                s.load.value.cohort[i].after <= s.load.value.number
                && s.load.value.cohort[i].asked <= (if s.load.value.seen.Some? then s.load.value.seen.value else s.db))
          && (s.load.value.seen.Some? ==> s.load.value.seen.value <= s.db)
          && (s.load.value.seen.Some? && s.load.value.keep ==>
             s.view.epoch >= s.load.value.seen.value && !s.load.value.force)
          && (s.load.value.keep ==> s.load.value.seen.Some?))
  }

  /** Epoch and entries belong together. */
  ghost predicate Coherent(s: State, tree: History) {
    s.view.epoch <= s.db && (Usable(s.view) ==> s.view.entries == tree(s.view.epoch))
  }

  ghost predicate Inv(s: State, tree: History) {
    Tickets(s) && Awake(s) && Times(s) && Coherent(s, tree)
  }

  lemma {:induction false} AnsweredAt(answers: map<Ticket, Verdict>, ws: seq<Waiter>, v: Verdict, t: Ticket)
    ensures t in Answered(answers, ws, v) <==> t in answers || exists i :: 0 <= i < |ws| && ws[i].ticket == t
    ensures (exists i :: 0 <= i < |ws| && ws[i].ticket == t) ==> Answered(answers, ws, v)[t] == v
    ensures t in answers && (forall i :: 0 <= i < |ws| ==> ws[i].ticket != t) ==>
            Answered(answers, ws, v)[t] == answers[t]
  {
    if ws != [] {
      var init := ws[..|ws| - 1];
      AnsweredAt(answers, init, v, t);
      forall i | 0 <= i < |init| ensures init[i] == ws[i] {}
      hide Answered;
      if i :| 0 <= i < |ws| && ws[i].ticket == t && i < |ws| - 1 { assert init[i].ticket == t; }
      if i :| 0 <= i < |init| && init[i].ticket == t { assert ws[i].ticket == t; }
    }
  }

  lemma {:induction false} AnsweredCount(answers: map<Ticket, Verdict>, ws: seq<Waiter>, v: Verdict, arrivals: nat)
    requires Distinct(ws) && Open(ws, answers, arrivals)
    ensures |Answered(answers, ws, v)| == |answers| + |ws|
  {
    if ws != [] {
      var init, last := ws[..|ws| - 1], ws[|ws| - 1];
      AnsweredCount(answers, init, v, arrivals);
      AnsweredAt(answers, init, v, last.ticket);
      assert forall i :: 0 <= i < |init| ==> init[i] == ws[i];
      var before := Answered(answers, init, v);
      assert last.ticket !in before;
      assert before[last.ticket := v].Keys == before.Keys + {last.ticket};
    }
  }

  /** The tickets of a line are those of its front and its rest. */
  lemma SplitLine(front: seq<Waiter>, rest: seq<Waiter>, answers: map<Ticket, Verdict>, arrivals: nat)
    requires Distinct(front + rest) && Open(front + rest, answers, arrivals)
    ensures Distinct(front) && Distinct(rest) && Open(front, answers, arrivals) && Open(rest, answers, arrivals)
    ensures forall i, j :: 0 <= i < |front| && 0 <= j < |rest| ==> front[i].ticket != rest[j].ticket
  {
    var all := front + rest;
    assert forall i :: 0 <= i < |front| ==> all[i] == front[i];
    assert forall j :: 0 <= j < |rest| ==> all[|front| + j] == rest[j];
    forall i, j | 0 <= i < j < |rest| ensures rest[i].ticket != rest[j].ticket {
      assert all[|front| + i].ticket != all[|front| + j].ticket;
    }
    forall i, j | 0 <= i < |front| && 0 <= j < |rest| ensures front[i].ticket != rest[j].ticket {
      assert all[i].ticket != all[|front| + j].ticket;
    }
  }

  lemma EndsTickets(s: State, n: State, v: Verdict)
    requires Tickets(s) && s.load.Some? && n.load.None? && n.queue == s.queue && n.arrivals == s.arrivals
    requires n.answers == Answered(s.answers, s.load.value.cohort, v)
    ensures Tickets(n)
  {
    var c := s.load.value.cohort;
    SplitLine(c, s.queue, s.answers, s.arrivals);
    AnsweredCount(s.answers, c, v, s.arrivals);
    assert Waiting(n) == s.queue;
    forall i | 0 <= i < |s.queue| ensures s.queue[i].ticket !in n.answers {
      AnsweredAt(s.answers, c, v, s.queue[i].ticket);
    }
    forall t | t in n.answers ensures t < n.arrivals { AnsweredAt(s.answers, c, v, t); }
  }

  lemma AsksTickets(s: State, n: State, w: Waiter)
    requires Tickets(s) && n.load == s.load && n.queue == s.queue + [w] && w.ticket == s.arrivals
             && n.arrivals == s.arrivals + 1 && n.answers == s.answers
    ensures Tickets(n)
  {
    assert Waiting(n) == Waiting(s) + [w];
  }

  lemma TicketsNext(s: State, tree: History, e: Event)
    requires Tickets(s) && Enabled(s, e)
    ensures Tickets(Next(s, tree, e))
  {
    hide Tickets, Answered;
    var n := Next(s, tree, e);
    match e
    case Asks(force) => AsksTickets(s, n, Waiter(s.arrivals, force, s.db, s.loads));
    case Ends(ok) =>
      EndsTickets(s, n, VerdictOf(s.load.value, Works(s.load.value, tree, ok)));
    case _ =>
      assert Waiting(n) == Waiting(s);
      SameTickets(s, n);
  }

  lemma SameTickets(s: State, n: State)
    requires Tickets(s) && Waiting(n) == Waiting(s) && n.answers == s.answers && n.arrivals == s.arrivals
    ensures Tickets(n)
  {
  }

  lemma TimesNext(s: State, tree: History, e: Event)
    requires Times(s) && Coherent(s, tree) && Enabled(s, e)
    ensures Times(Next(s, tree, e))
  {
    hide Answered;
    if e.Begins? { hide AnyForced; }
  }

  lemma RestNext(s: State, tree: History, e: Event)
    requires Awake(s) && Times(s) && Coherent(s, tree) && Enabled(s, e)
    ensures Awake(Next(s, tree, e)) && Coherent(Next(s, tree, e), tree)
  {
    hide Answered, AnyForced;
    assert s.load.Some? && s.load.value.seen.Some? ==> s.load.value.seen.value <= s.db;
    hide Times;
  }

  lemma InvNext(s: State, tree: History, e: Event)
    requires Inv(s, tree) && Enabled(s, e)
    ensures Inv(Next(s, tree, e), tree)
  {
    hide Tickets, Times, Awake, Coherent, Next;
    TicketsNext(s, tree, e);
    TimesNext(s, tree, e);
    RestNext(s, tree, e);
  }

  ghost predicate Behaviour(states: seq<State>, events: seq<Event>, tree: History) {
    && |states| == |events| + 1
    && states[0].queue == [] && !states[0].running && states[0].load == None && states[0].arrivals == 0
       && states[0].answers == map[]
    && states[0].view == Cached(0, map[], false)
    && forall n :: 0 <= n < |events| ==>
       Enabled(states[n], events[n]) && states[n + 1] == Next(states[n], tree, events[n])
  }

  lemma {:induction false} RunInv(states: seq<State>, events: seq<Event>, tree: History, n: nat)
    requires Behaviour(states, events, tree) && n < |states|
    ensures Inv(states[n], tree)
    decreases n
  {
    if n > 0 {
      RunInv(states, events, tree, n - 1);
      hide Inv;
      InvNext(states[n - 1], tree, events[n - 1]);
    }
  }

  /** In every run, whoever is answered: the snapshot was begun after it asked; a forced caller gets a
      reload; and once resolved the view is at an epoch no older than the database was when the caller
      asked, and is the tree of that epoch unless it was poisoned meanwhile. */
  lemma AnsweredFresh(states: seq<State>, events: seq<Event>, tree: History, n: nat, i: nat)
    requires Behaviour(states, events, tree) && n < |events| && events[n].Ends? && i < |states[n].load.value.cohort|
    ensures var w, s, v := states[n].load.value.cohort[i], states[n + 1], states[n].load.value;
            var works := Works(v, tree, events[n].ok);
            && w.ticket !in states[n].answers && w.ticket in s.answers && w.after <= v.number
            && s.answers[w.ticket] == VerdictOf(v, works)
            && (works ==>
                  && (w.force ==> !v.keep) && w.asked <= s.view.epoch <= s.db
                  && (!v.keep ==> Usable(s.view)) && (Usable(s.view) ==> s.view.entries == tree(s.view.epoch)))
            && (!works ==> s.view == states[n].view)
  {
    RunInv(states, events, tree, n);
    RunInv(states, events, tree, n + 1);
    var s := states[n];
    var c, v := s.load.value.cohort, VerdictOf(s.load.value, Works(s.load.value, tree, events[n].ok));
    SplitLine(c, s.queue, s.answers, s.arrivals);
    AnsweredAt(s.answers, c, v, c[i].ticket);
    hide Answered, Tickets, Distinct;
    assert c[i].ticket in states[n + 1].answers;
  }

  /** In every run: a caller is resolved if and only if its load ended well and either kept the view or saw a tree with
      rows, and is rejected otherwise. It is told of a reload if and only if the view was replaced by that snapshot,
      as it is for every forced caller that is resolved; without one the view is what it was. */
  lemma AnswersMean(states: seq<State>, events: seq<Event>, tree: History, n: nat, i: nat)
    requires Behaviour(states, events, tree) && n < |events| && events[n].Ends? && i < |states[n].load.value.cohort|
    ensures var w, before, s, l := states[n].load.value.cohort[i], states[n].view, states[n + 1], states[n].load.value;
            var well := events[n].ok && (l.keep || tree(l.seen.value) != map[]);
            && w.ticket in s.answers && var a := s.answers[w.ticket];
            && (a.Resolved? <==> well) && (a.Rejected? <==> !well) && a.load == l.number
            && (a.Resolved? && a.reloaded <==> well && !l.keep)
            && (if a.Resolved? && a.reloaded then s.view == Cached(l.seen.value, tree(l.seen.value), false)
                else s.view == before)
            && (w.force && a.Resolved? ==> a.reloaded)
  {
    AnsweredFresh(states, events, tree, n, i);
    var l := states[n].load.value;
    VerdictTells(l, tree, events[n].ok);
    hide Behaviour, Answered;
  }

  function Count(events: seq<Event>, e: Event): nat {
    if events == [] then 0 else Count(events[..|events| - 1], e) + if events[|events| - 1] == e then 1 else 0
  }

  /** The load began with event `m`, for everyone in the queue then. */
  ghost predicate TakesAll(states: seq<State>, events: seq<Event>, m: nat, load: Load)
    requires m < |events| && m < |states|
  {
    events[m] == Begins && load.cohort == states[m].queue && load.number == states[0].loads + Count(events[..m], Begins)
  }

  /** Loads are numbered as they begin, and the one under way is the last; its cohort is everyone who queued when it
      began, and it is forced if and only if one of them asked for that. */
  lemma {:induction false} LoadsAreNumbered(states: seq<State>, events: seq<Event>, tree: History, n: nat)
    requires Behaviour(states, events, tree) && n < |states|
    ensures states[n].loads == states[0].loads + Count(events[..n], Begins)
    ensures states[n].load.Some? ==>
              && states[n].load.value.number == states[n].loads - 1
              && (exists m :: 0 <= m < n && TakesAll(states, events, m, states[n].load.value))
              && (states[n].load.value.force <==>
                    exists i :: 0 <= i < |states[n].load.value.cohort| && states[n].load.value.cohort[i].force)
    decreases n
  {
    if n > 0 {
      var s, e := states[n - 1], events[n - 1];
      LoadsAreNumbered(states, events, tree, n - 1);
      assert events[..n][..n - 1] == events[..n - 1] && events[..n][n - 1] == e;
      assert Enabled(s, e) && states[n] == Next(s, tree, e);
      hide Answered, Behaviour;
      if states[n].load.Some? {
        if e == Begins {
          assert TakesAll(states, events, n - 1, states[n].load.value);
        } else {
          var m :| 0 <= m < n - 1 && TakesAll(states, events, m, s.load.value);
          assert TakesAll(states, events, m, states[n].load.value);
        }
      }
    }
  }

  /** A snapshot keeps the view if and only if nobody in the cohort insisted, and the view is loaded,
      not poisoned and at
      the very epoch the snapshot shows. */
  lemma SeesExactly(states: seq<State>, events: seq<Event>, tree: History, n: nat)
    requires Behaviour(states, events, tree) && n < |events| && events[n].Sees?
    ensures var s, l := states[n], states[n + 1].load;
            && l.Some? && l.value.seen == Some(s.db) && l.value.cohort == s.load.value.cohort
            && (l.value.keep <==>
                  && (forall i :: 0 <= i < |l.value.cohort| ==> !l.value.cohort[i].force)
                  && !s.view.poisoned && s.view.entries != map[] && s.view.epoch == s.db)
  {
    LoadsAreNumbered(states, events, tree, n);
    assert states[n + 1] == Next(states[n], tree, events[n]);
    hide Behaviour;
  }

  /** Every caller is settled exactly once: unanswered it stands in line exactly once, answered it never
      changes, and there are no others. */
  lemma SettledOnce(states: seq<State>, events: seq<Event>, tree: History, n: nat, m: nat, t: Ticket)
    requires Behaviour(states, events, tree) && n <= m < |states| && t in states[n].answers
    ensures t in states[m].answers && states[m].answers[t] == states[n].answers[t]
    ensures |Waiting(states[m])| + |states[m].answers| == states[m].arrivals
    decreases m
  {
    RunInv(states, events, tree, m);
    if n < m {
      SettledOnce(states, events, tree, n, m - 1, t);
      RunInv(states, events, tree, m - 1);
      hide Inv, Answered;
      StaysAnswered(states[m - 1], tree, events[m - 1], t);
    }
  }

  lemma StaysAnswered(s: State, tree: History, e: Event, t: Ticket)
    requires Inv(s, tree) && Enabled(s, e) && t in s.answers
    ensures t in Next(s, tree, e).answers && Next(s, tree, e).answers[t] == s.answers[t]
  {
    if e.Ends? {
      var c := s.load.value.cohort;
      SplitLine(c, s.queue, s.answers, s.arrivals);
      AnsweredAt(s.answers, c, VerdictOf(s.load.value, Works(s.load.value, tree, e.ok)), t);
    }
  }

  /** No lost wake-up: while anybody waits, the loop is in a load or about to begin one. */
  lemma NobodyForgotten(states: seq<State>, events: seq<Event>, tree: History, n: nat)
    requires Behaviour(states, events, tree) && n < |states| && Waiting(states[n]) != []
    ensures states[n].running && (Enabled(states[n], Begins) || states[n].load.Some?)
  {
    RunInv(states, events, tree, n);
  }

  // ── A short run ────────────────────────────────────────────────────────────

  const ROWS: PathView := map[[] := Entry(1, Tables.Meta(Tables.Directory, 493, 0, None, None))]
  const BLANK := Cached(0, map[], false)
  const LOADED := Cached(0, ROWS, false)
  const R0 := State(0, BLANK, [], false, None, 0, 0, map[])
  const R1 := R0.(queue := [Waiter(0, true, 0, 0)], arrivals := 1, running := true)
  const R2 := R1.(queue := [], load := Some(Load([Waiter(0, true, 0, 0)], true, 0, None, false)), loads := 1)
  const R3 := R2.(load := Some(Load([Waiter(0, true, 0, 0)], true, 0, Some(0), false)))
  const R4 := R3.(view := LOADED, load := None, running := false, answers := map[0 := Resolved(true, 0)])
  const R5 := R4.(queue := [Waiter(1, false, 0, 1)], arrivals := 2, running := true)
  const R6 := R5.(queue := [], load := Some(Load([Waiter(1, false, 0, 1)], false, 1, None, false)), loads := 2)
  const R7 := R6.(load := Some(Load([Waiter(1, false, 0, 1)], false, 1, Some(0), true)))
  const R8 := R7.(load := None, running := false, answers := map[0 := Resolved(true, 0), 1 := Resolved(false, 1)])
  const RUN: seq<State> := [R0, R1, R2, R3, R4, R5, R6, R7, R8]
  const STEPS: seq<Event> := [Asks(true), Begins, Sees, Ends(true), Asks(false), Begins, Sees, Ends(true)]

  function Same(e: nat): PathView {
    ROWS
  }

  lemma Asking()
    ensures Next(R0, Same, STEPS[0]) == R1 && Next(R1, Same, STEPS[1]) == R2
    ensures Next(R4, Same, STEPS[4]) == R5 && Next(R5, Same, STEPS[5]) == R6
  {
    assert R1.queue[0].force;
  }

  lemma Seeing()
    ensures Next(R2, Same, STEPS[2]) == R3 && Next(R6, Same, STEPS[6]) == R7
  {
    assert [] in ROWS;
  }

  lemma Ending()
    ensures Next(R3, Same, STEPS[3]) == R4 && Next(R7, Same, STEPS[7]) == R8
  {
    assert [] in ROWS;
    var none: map<Ticket, Verdict> := map[];
    AnsweredOne(none, Waiter(0, true, 0, 0), Resolved(true, 0));
    AnsweredOne(map[0 := Resolved(true, 0)], Waiter(1, false, 0, 1), Resolved(false, 1));
    hide Answered, AnyForced;
    assert none[0 := Resolved(true, 0)] == map[0 := Resolved(true, 0)];
    assert map[0 := Resolved(true, 0)][1 := Resolved(false, 1)] == map[0 := Resolved(true, 0), 1 := Resolved(false, 1)];
    assert Works(R3.load.value, Same, true) && VerdictOf(R3.load.value, true) == Resolved(true, 0);
    assert Works(R7.load.value, Same, true) && VerdictOf(R7.load.value, true) == Resolved(false, 1);
  }

  lemma AnsweredOne(answers: map<Ticket, Verdict>, w: Waiter, v: Verdict)
    ensures Answered(answers, [w], v) == answers[w.ticket := v]
  {
    assert [w][..0] == [];
  }

  /** A forced caller is answered with a reload, and the next caller finds the view fresh. */
  lemma LoadedThenFresh()
    ensures Behaviour(RUN, STEPS, Same) && R8.view == LOADED
    ensures R8.answers == map[0 := Resolved(true, 0), 1 := Resolved(false, 1)]
  {
    Asking();
    Seeing();
    Ending();
    hide Next;
    assert forall n :: 0 <= n < 8 ==> Enabled(RUN[n], STEPS[n]) && RUN[n + 1] == Next(RUN[n], Same, STEPS[n]);
  }
}
