/** The objects of one session: the cached view that is updated in place, and the file system that
    ends and aborts scopes over it. Each method is proved against the functions that the run of many
    sessions steps by. */
module Sessions {
  import opened Options
  import opened Tables
  import opened View
  import opened Renaming
  import opened Persistence

  /** What a load saw: an epoch and the rows of the same snapshot. */
  datatype Snapshot = Snapshot(epoch: nat, rows: PathView)
  datatype Cache = Cache(epoch: nat, entries: PathView, poisoned: bool)

  predicate Unbound(v: PathView) {
    exists p :: p in v && v[p].id < 0
  }

  /** A reload replaces epoch and entries together, or it fails and the view is poisoned. */
  function Recovered(c: Cache, reload: Option<Snapshot>): Cache {
    match reload
    case None => c.(poisoned := true)
    case Some(s) => Cache(s.epoch, s.rows, false)
  }

  /** What the end of a scope makes of the cached view, given how `finish` settled. */
  function Settle(c: Cache, s: Settlement, reload: Option<Snapshot>): Cache {
    match s
    case Unchanged => c
    case Failed(required) => if required then Recovered(c, reload) else c
    case Committed(epoch, remap) =>
      var named := RenameIds(c.entries, remap);
      if Unbound(named) then Recovered(c.(entries := named), reload) else Cache(epoch, named, c.poisoned)
  }

  class CoherentView {
    var epoch: nat
    var entries: PathView
    var poisoned: bool

    constructor ()
      ensures Value() == Cache(0, map[], false)
    {
      epoch, entries, poisoned := 0, map[], false;
    }

    function Value(): Cache
      reads this
    {
      Cache(epoch, entries, poisoned)
    }

    /** Applies the changes one by one; only a committed publication moves the epoch. */
    method PublishMutation(committed: Option<nat>, changes: seq<Change>)
      modifies this
      ensures entries == ApplyChanges(old(entries), changes) && poisoned == old(poisoned)
      ensures epoch == if committed.Some? then committed.value else old(epoch)
    {
      for n := 0 to |changes|
        invariant entries == ApplyChanges(old(entries), changes[..n]) && epoch == old(epoch)
                  && poisoned == old(poisoned)
      {
        assert changes[..n + 1][..n] == changes[..n];
        match changes[n]
        case Put(p, e) => entries := entries[p := e];
        case Delete(p) => entries := entries - {p};
        case PatchMode(id, mode) => UpdateByInode(id, mode);
      }
      assert changes[..|changes|] == changes;
      if committed.Some? { epoch := committed.value; }
    }

    method UpdateByInode(id: Id, mode: int)
      modifies this`entries
      ensures entries == ApplyChange(old(entries), PatchMode(id, mode))
    {
      var todo := entries.Keys;
      while todo != {}
        invariant todo <= old(entries).Keys == entries.Keys
        invariant forall p :: p in todo ==> entries[p] == old(entries)[p]
        invariant forall p :: p in entries && p !in todo ==>
                  entries[p] == ApplyChange(old(entries), PatchMode(id, mode))[p]
        decreases |todo|
      {
        var p :| p in todo;
        if entries[p].id == id { entries := entries[p := entries[p].(meta := entries[p].meta.(mode := mode))]; }
        todo := todo - {p};
      }
    }

    /** Renames the provisional ids a flush bound; one left unbound is an error and keeps the epoch. */
    method PublishScope(committed: nat, remap: Remap) returns (ok: bool)
      modifies this
      ensures entries == RenameIds(old(entries), remap) && poisoned == old(poisoned)
      ensures ok <==> !Unbound(entries)
      ensures epoch == if ok then committed else old(epoch)
    {
      RenameEntries(remap);
      if Unbound(entries) { return false; }
      epoch := committed;
      return true;
    }

    method RenameEntries(remap: Remap)
      modifies this`entries
      ensures entries == RenameIds(old(entries), remap)
    {
      ghost var goal := RenameIds(entries, remap);
      var todo := entries.Keys;
      while todo != {}
        invariant todo <= old(entries).Keys == entries.Keys == goal.Keys
        invariant forall p :: p in todo ==> entries[p] == old(entries)[p]
        invariant forall p :: p in entries && p !in todo ==> entries[p] == goal[p]
        decreases |todo|
      {
        var p :| p in todo;
        if entries[p].id in remap { entries := entries[p := entries[p].(id := remap[entries[p].id])]; }
        todo := todo - {p};
      }
    }

    /** A claim of this session's own epoch carries the view along; any other claim asks for a reload. */
    method PublishGeneration(priorEpoch: nat, claimed: nat) returns (ok: bool)
      modifies this`epoch
      ensures ok <==> !poisoned && priorEpoch == old(epoch)
      ensures epoch == if ok then claimed else old(epoch)
    {
      if !poisoned && priorEpoch == epoch {
        epoch := claimed;
        return true;
      }
      return false;
    }

    /** Installs what the snapshot saw unless the view is known to be that epoch already. */
    method Load(force: bool, seen: Snapshot) returns (reloaded: bool)
      modifies this
      ensures reloaded <==> force || old(poisoned) || old(entries) == map[] || seen.epoch != old(epoch)
      ensures Value() == if reloaded then Cache(seen.epoch, seen.rows, false) else old(Value())
    {
      if !force && !poisoned && entries != map[] && seen.epoch == epoch { return false; }
      epoch, entries, poisoned := seen.epoch, seen.rows, false;
      return true;
    }

    method Poison()
      modifies this`poisoned
      ensures poisoned
    {
      poisoned := true;
    }
  }

  class SqlFs {
    const persistence: ScriptPersistence
    const view: CoherentView

    constructor (p: ScriptPersistence, v: CoherentView)
      ensures persistence == p && view == v
    {
      persistence, view := p, v;
    }

    /** `#recoverCommittedView`. */
    method Recover(reload: Option<Snapshot>)
      modifies view
      ensures view.Value() == Recovered(old(view.Value()), reload)
    {
      if reload.None? {
        view.Poison();
      } else {
        var _ := view.Load(true, reload.value);
      }
    }

    /** Flushes the scope and settles the view. When the owner lost its lease or the scope was lost,
        nothing is flushed; whenever something had been recorded and did not commit, the view ends
        reloaded or poisoned. */
    method EndScriptScope(leaseLost: bool, db: Database, stored: seq<seq<Id>>, fate: Fate,
                          reload: Option<Snapshot>) returns (ok: bool)
      requires persistence.Valid() && |stored| == |persistence.mutations|
      modifies persistence, view, db
      ensures persistence.Valid() && !persistence.scope
              && persistence.nextProvisional == old(persistence.nextProvisional)
      ensures !old(persistence.scope) ==> ok && db.state == old(db.state) && view.Value() == old(view.Value())
      ensures old(persistence.scope) ==>
                var lost := leaseLost || old(persistence.lost);
                var r := Finished(old(db.state), old(view.epoch), lost, old(persistence.mutations), stored, fate);
                && db.state == r.0 && view.Value() == Settle(old(view.Value()), r.1, reload)
                && (ok <==>
                      && !lost && !r.1.Failed?
                      && (r.1.Committed? ==> !Unbound(RenameIds(old(view.entries), r.1.remap))))
      ensures old(persistence.scope) && old(persistence.mutations) != [] && !ok ==>
                view.poisoned || (reload.Some? && view.Value() == Cache(reload.value.epoch, reload.value.rows, false))
    {
      if !persistence.scope { return true; }
      if leaseLost || persistence.lost {
        AbortScriptScope(reload);
        return false;
      }
      var s := persistence.Finish(db, view.epoch, stored, fate);
      match s
      case Unchanged => return true;
      case Failed(required) =>
        if required { Recover(reload); }
        return false;
      case Committed(e, remap) =>
        ok := view.PublishScope(e, remap);
        if !ok { Recover(reload); }
    }

    method AbortScriptScope(reload: Option<Snapshot>)
      requires persistence.Valid()
      modifies persistence, view
      ensures persistence.Valid() && !persistence.scope
              && persistence.nextProvisional == old(persistence.nextProvisional)
      ensures view.Value() == if old(persistence.scope) && old(persistence.mutations) != []
                              then Recovered(old(view.Value()), reload) else old(view.Value())
    {
      var required := persistence.Abort();
      if required { Recover(reload); }
    }

    /** Retires the sandbox's generation: the epoch advances and the tree stays. */
    method ClaimGeneration(db: Database, reload: Option<Snapshot>) returns (claimed: Option<bool>)
      modifies view, db
      ensures persistence.scope ==> claimed.None? && db.state == old(db.state) && view.Value() == old(view.Value())
      ensures !persistence.scope ==>
                var carried := !old(view.poisoned) && old(view.epoch) == old(db.state).version;
                && db.state == old(db.state).(version := old(db.state).version + 1)
                && claimed == (if carried then Some(false) else if reload.Some? then Some(true) else None)
                && view.Value() == (if carried then old(view.Value()).(epoch := db.state.version)
                                    else if reload.Some? then Recovered(old(view.Value()), reload)
                                        else old(view.Value()))
    {
      if persistence.scope { return None; }
      var prior := db.state.version;
      db.state := db.state.(version := prior + 1);
      var carried := view.PublishGeneration(prior, prior + 1);
      if carried { return Some(false); }
      if reload.None? { return None; }
      var _ := view.Load(true, reload.value);
      return Some(true);
    }
  }
}
